# Protocols and generics playground, modelled in Dafny

This project models the two exercises of the `ProtocolsErrors` Swift playground.

- **Generics page** (`generics.dfy`, module `Generics`): the generic singly linked list.
  `Node<T>` is a cell with a mutable `value` and an optional `next`. `MyLL<T>` holds
  a `head` and a stored `size`. It offers head insertion (`Add`), `Clear`,
  `GetHead`, indexed `Get`, equality search (`Contains`) and conversion to a
  sequence (`ToArray`).
  - Each list carries a ghost sequence `nodes` of the cells reachable from `head`.
    `Valid()` says that these cells form a chain that ends in `nil`.
  - `Contents()` is the sequence of the cells' values, head first.
  - Every operation is stated against `nodes` and `Contents()`.
- **Protocols page** (`protocols.dfy`, module `Protocols`): the personal ID records.
  - The datatype `PersonalID` holds the protocol's four property requirements.
  - `DefaultMove` and `DefaultToString` are the two protocol-extension defaults.
  - `DriversLicense` and `Buzzcard` are classes whose mutating setters are methods.
  - `DriversLicense` has no `toString` of its own: its version is commented out.
    So `DriversLicense.ToString` is the default.
  - `Buzzcard.ToString` is the record's own concatenation, written separately.
    `BuzzcardToStringAgrees` proves that it gives the same string as the default.

## The code as written versus its comments

The model follows the code, not the doc comments of its `LinkedList` protocol.

- `add` and `clear` never assign `size`. `Add` and `Clear` keep `size` unchanged.
  No relation between `size` and the length of the chain is claimed.
- `get(index:)` advances with `temp = head.next` and never reads `temp`. So an index of
  1 or more gives the second cell (or `nil`), whatever the index. `GetScenario`
  shows that `Get(5)` on the list `c, b, a` returns the cell holding `b`.
- `get` with a negative index never meets its counter. The loop runs until the
  overflow-checked `count += 1` traps at `Int.max`. `Get` therefore requires `index >= 0`.
- The protocol comment says `toArray` returns `nil` for an empty list. The code
  returns an empty array. `ToArray` returns `Some([])` there and never `None`.

## Model

| member | source | states |
|---|---|---|
| `Generics.Node.constructor` | ProtocolsErrors.playground/Pages/Generics.xcplaygroundpage/Contents.swift:30-33 | the new cell holds exactly the given value and successor; the successor defaults to `nil` |
| `Generics.MyLL.constructor` | ProtocolsErrors.playground/Pages/Generics.xcplaygroundpage/Contents.swift:36-43 | the memberwise initializer stores the given `head` (by default `nil`) and `size`; the list is valid when `head` starts a `nil`-terminated chain |
| `Generics.MyLL.Add` | ProtocolsErrors.playground/Pages/Generics.xcplaygroundpage/Contents.swift:45-47 | a fresh cell holding the value becomes `head`, and its `next` is the old head; the contents become `[value] + old contents`; `size` is unchanged |
| `Generics.MyLL.Clear` | ProtocolsErrors.playground/Pages/Generics.xcplaygroundpage/Contents.swift:39-41 | `head` becomes `nil` and the contents become empty; `size` is unchanged |
| `Generics.MyLL.GetHead` | ProtocolsErrors.playground/Pages/Generics.xcplaygroundpage/Contents.swift:49-51 | returns `head` and changes nothing; the result is `nil` exactly when the list is empty, and otherwise holds the first value |
| `Generics.MyLL.Get` | ProtocolsErrors.playground/Pages/Generics.xcplaygroundpage/Contents.swift:52-62 | for `index >= 0`: index 0 gives `head`; an empty list gives `nil`; any index of 1 or more gives `head.next`, the second cell, which is `nil` exactly when the list has at most one cell |
| `Generics.MyLL.Contains` | ProtocolsErrors.playground/Pages/Generics.xcplaygroundpage/Contents.swift:63-78 | the search ends, and returns true exactly when some reachable cell holds the value, that is, exactly when the value is in the contents; so it is false on an empty list |
| `Generics.MyLL.ToArray` | ProtocolsErrors.playground/Pages/Generics.xcplaygroundpage/Contents.swift:79-95 | returns `Some` of the values from head to tail, one per reachable cell and never `None`, so an empty list gives `Some([])`; it changes nothing, so two calls give equal results |
| `Generics.BuildScenarioList` | ProtocolsErrors.playground/Pages/Generics.xcplaygroundpage/Contents.swift:45-47 | adding "a", "b" and "c" to an empty list gives the contents `["c", "b", "a"]`, with `size` still 0 |
| `Generics.ListScenario` | ProtocolsErrors.playground/Pages/Generics.xcplaygroundpage/Contents.swift:63-95 | on that list, `ToArray` gives `["c", "b", "a"]` twice, `Contains("a")` is true, `Contains("z")` is false, and `size` is 0 |
| `Generics.GetScenario` | ProtocolsErrors.playground/Pages/Generics.xcplaygroundpage/Contents.swift:52-62 | on that list, `Get(1)` and also `Get(5)` give the cell holding "b" |
| `Generics.ClearScenario` | ProtocolsErrors.playground/Pages/Generics.xcplaygroundpage/Contents.swift:39-41 | after `Clear`, `ToArray` gives `Some([])`, `GetHead` and `Get(0)` give `nil`, `Contains` is false, and `size` keeps its constructed value |
| `Protocols.DefaultMove` | ProtocolsErrors.playground/Pages/Protocols.xcplaygroundpage/Contents.swift:148-152 | the protocol extension's `move` sets `address` to the new address and keeps the three other properties |
| `Protocols.DefaultToString` | ProtocolsErrors.playground/Pages/Protocols.xcplaygroundpage/Contents.swift:164-168 | the protocol extension's `toString` is `"Name: " + firstName + " " + lastName`, then `", Date: " + expirationDate`, then `", Address: " + address`, stated segment by segment with the total length |
| `Protocols.DefaultToStringShowsAddress` | ProtocolsErrors.playground/Pages/Protocols.xcplaygroundpage/Contents.swift:164-168 | two default descriptions of one person that differ only in the address are equal only when the addresses are equal |
| `Protocols.DriversLicense.constructor` | ProtocolsErrors.playground/Pages/Protocols.xcplaygroundpage/Contents.swift:60-80 | the memberwise initializer stores all eight fields as given |
| `Protocols.DriversLicense.ToString` | ProtocolsErrors.playground/Pages/Protocols.xcplaygroundpage/Contents.swift:68-71 | the record's own version is commented out, so the default applies: the name segment, the date segment and the address segment of the current fields, with the total length |
| `Protocols.DriversLicense.Move` | ProtocolsErrors.playground/Pages/Protocols.xcplaygroundpage/Contents.swift:65-67 | sets `address` to the new address, agrees with the protocol extension's `move`, and leaves the names, the date, `organDonor`, `under21`, `liscenseClass` and `id` unchanged |
| `Protocols.DriversLicense.ChangeOrganStatus` | ProtocolsErrors.playground/Pages/Protocols.xcplaygroundpage/Contents.swift:76-78 | sets `organDonor` to the new status and leaves every other field unchanged |
| `Protocols.Buzzcard.constructor` | ProtocolsErrors.playground/Pages/Protocols.xcplaygroundpage/Contents.swift:115-130 | the memberwise initializer stores all seven fields as given |
| `Protocols.Buzzcard.ToString` | ProtocolsErrors.playground/Pages/Protocols.xcplaygroundpage/Contents.swift:124-126 | the record's own `toString` is the name segment, the date segment and the address segment of its fields, with the total length |
| `Protocols.BuzzcardToStringAgrees` | ProtocolsErrors.playground/Pages/Protocols.xcplaygroundpage/Contents.swift:124-126 | for every card, the record's own `toString` gives the same string as the protocol extension's default on the card's four properties |
| `Protocols.Buzzcard.Move` | ProtocolsErrors.playground/Pages/Protocols.xcplaygroundpage/Contents.swift:121-123 | sets `address` to the new address, agrees with the protocol extension's `move`, and leaves the names, the date, `gtid`, `isStudent` and `color` unchanged |
| `Protocols.Buzzcard.Graduate` | ProtocolsErrors.playground/Pages/Protocols.xcplaygroundpage/Contents.swift:131-133 | sets `isStudent` to false and leaves every other field unchanged, so a second call changes nothing |
| `Protocols.ScenarioDescription` | ProtocolsErrors.playground/Pages/Protocols.xcplaygroundpage/Contents.swift:96 | the default description of the page's license at any address is `"Name: Alec Hance, Date: 1-1-30, Address: "` followed by that address |
| `Protocols.LicenseScenario` | ProtocolsErrors.playground/Pages/Protocols.xcplaygroundpage/Contents.swift:96-103 | the license built at "North Pole" is described with that address; after `move` to "South Pole" and `changeOrganStatus(false)` its address is "South Pole", `organDonor` is false and its description ends with "Address: South Pole", and the description at the end of the page is the same |

## Left out

- Printing: the `print` calls of the Protocols page become the out-parameters of `LicenseScenario`.
- The `LinkedList` protocol declaration (an associated type and requirement list) has no code of its own. Only its conformance `MyLL` is modelled.
- `Identifiable` and `Hashable` conformance: the Swift compiler synthesises it, and the hash function is not visible.
- Swift struct value semantics: `MyLL`, `DriversLicense` and `Buzzcard` are Swift structs, modelled as classes. Copying a struct on assignment is not modelled; no modelled code copies one.
- Swift reference counting, and the release of cells on `clear`.
- Swift string interpolation is modelled as plain concatenation of `seq<char>`.
- Swift `Int` is modelled as unbounded `int`. The counter of `get` never exceeds its non-negative index, so no overflow arises.
- The `Equatable` bound is modelled as Dafny's equality-supporting `T(==)`.
- A default value for nodes: the exercise text asks for one, but the code's `init` has none.
- A `size` that follows the length of the chain, and a `get` that walks to the given index: the code does neither, so neither is proved.
- Generics.MyLL.Get: requires `index >= 0`, because on a negative index the code loops until its counter overflows and traps; that behaviour is not modelled.
- Generics.MyLL.constructor: takes a ghost sequence of the cells reachable from `head`, so that a caller builds a list only from a `nil`-terminated, acyclic chain. The code assumes this discipline but never checks it.
- The playground page's own test section for the list is empty. The list scenarios follow the code as written, not its doc comments: `Get(5)` gives the cell holding "b", and `size` stays at its constructed value.
