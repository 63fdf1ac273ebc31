# Foreman agent: cgminer replies, configuration, excavator factory

A Dafny model of three value-building pieces of the Foreman mining-fleet
agent (the pickaxe), which polls mining software and reports its statistics:

- **cgminer reply** (`CgMinerResponse`, module `CgMinerResponse`). A reply has a
  status section, an ordered list of payload rows and a numeric id. Its
  builder starts with a FATAL status section, id 0 and no rows. `build()`
  rejects a null status section and copies the rows. The builder is a class
  whose methods update its fields. Each method is proved against
  `BuilderState.Apply`. `Replay` folds `Apply` over any sequence of builder
  calls, and the lemmas about `Replay` describe every builder history. The
  reply's queries (`GetValues`, `HasValues`, `IsSuccess`, `Equals`,
  `HashCode`) are functions on the immutable reply.
- **Top-level configuration** (`YmlConfiguration`, module `YmlConfiguration`).
  The constructor refuses a null or empty Foreman API URL or API key and a
  negative poll frequency. It then turns each per-family list of miner
  configurations into a copy, or into the empty list when it is null.
- **Excavator factory** (`ExcavatorFactory`, module `ExcavatorFactory`).
  `create` reads `name`, `apiIp` and `apiPort` from a string map and parses
  the port with `Integer.parseInt`.

Supporting modules: `Wrappers` (Option, Result, Outcome), `JavaLang` (the
widths of `int` and `long`, the exceptions, `Integer.parseInt` and its inverse
the decimal form of an integer), `Validate` (the three Apache Commons Lang `Validate`
checks that are called) and `JavaHash` (Java's `String`, `List` and `Map`
hash codes and `HashCodeBuilder`'s mixing, all wrapping at 32 bits).

Java `null` is `None`. A thrown exception is `Err` carrying a `JavaLang.Exception`.
Java lists are immutable `seq` values, so a copy cannot be aliased.

Behaviour worth knowing, as the code has it:
- A poll frequency of 0 is accepted. The message says "must be positive",
  but the check is `inclusiveBetween(0, Integer.MAX_VALUE, …)`.
- A bad excavator port surfaces as the `NumberFormatException` thrown by
  `Integer.parseInt`.
- A missing excavator `name` or `apiIp` is passed on as null. Only the port is
  checked.

## Model

| member | source | states |
|---|---|---|
| `CgMinerResponse.Response.GetValues` | foreman-cgminer/src/main/java/mn/foreman/cgminer/response/CgMinerResponse.java:117-123 | the rows are never null: the payload when present, the empty sequence when absent |
| `CgMinerResponse.Response.HasValues` | foreman-cgminer/src/main/java/mn/foreman/cgminer/response/CgMinerResponse.java:130-134 | holds iff the reply is a success and its rows are non-empty |
| `CgMinerResponse.Response.IsSuccess` | foreman-cgminer/src/main/java/mn/foreman/cgminer/response/CgMinerResponse.java:150-153 | holds iff the status code is SUCCESS |
| `CgMinerResponse.Response.HashCode` | foreman-cgminer/src/main/java/mn/foreman/cgminer/response/CgMinerResponse.java:137-143 | the HashCodeBuilder total after appending the status section's hash, the rows' hash (0 when null) and the id's hash, in that order |
| `CgMinerResponse.Response.Equals` | foreman-cgminer/src/main/java/mn/foreman/cgminer/response/CgMinerResponse.java:70-92 | comparing status section, rows and id field by field is exactly equality of replies; null is never equal |
| `CgMinerResponse.NewResponse` | foreman-cgminer/src/main/java/mn/foreman/cgminer/response/CgMinerResponse.java:57-67 | fails with NullPointerException "statusSection is required" iff the status section is null; otherwise keeps the section and id and copies the rows |
| `CgMinerResponse.EqualsIsSymmetric` | foreman-cgminer/src/main/java/mn/foreman/cgminer/response/CgMinerResponse.java:70-92 | equals is symmetric |
| `CgMinerResponse.EqualsAgreesWithHashCode` | foreman-cgminer/src/main/java/mn/foreman/cgminer/response/CgMinerResponse.java:137-143 | equal replies have equal hash codes |
| `CgMinerResponse.NoValuesUnlessSuccess` | foreman-cgminer/src/main/java/mn/foreman/cgminer/response/CgMinerResponse.java:130-153 | a reply whose status code is not SUCCESS has no values whatever its rows; a successful one has values iff it has rows |
| `CgMinerResponse.BuilderState.Apply` | foreman-cgminer/src/main/java/mn/foreman/cgminer/response/CgMinerResponse.java:189-225 | addValues appends its row, setId replaces the id, setStatusSection replaces the section (null included); each call changes its own field and no other |
| `CgMinerResponse.BuilderState.Build` | foreman-cgminer/src/main/java/mn/foreman/cgminer/response/CgMinerResponse.java:195-200 | build fails iff the held status section is null, else yields a reply of exactly the held section, rows and id |
| `CgMinerResponse.ReplayState` | foreman-cgminer/src/main/java/mn/foreman/cgminer/response/CgMinerResponse.java:170-225 | after any calls, a new builder holds the rows added in call order, the last id set (0 if none) and the last section set (FATAL if none) |
| `CgMinerResponse.BuildFailsIffStatusSectionSetToNull` | foreman-cgminer/src/main/java/mn/foreman/cgminer/response/CgMinerResponse.java:195-225 | build throws NullPointerException exactly when the last setStatusSection call passed null |
| `CgMinerResponse.BuiltRowsAreAddedRows` | foreman-cgminer/src/main/java/mn/foreman/cgminer/response/CgMinerResponse.java:189-200 | a built reply's rows are the maps passed to addValues, in call order, and its id is the last one set |
| `CgMinerResponse.BuildWithoutStatusSectionIsFatal` | foreman-cgminer/src/main/java/mn/foreman/cgminer/response/CgMinerResponse.java:177-180 | if setStatusSection was never called, build succeeds with a FATAL reply that is neither a success nor has values |
| `CgMinerResponse.Builder.constructor` | foreman-cgminer/src/main/java/mn/foreman/cgminer/response/CgMinerResponse.java:170-180 | a new builder has no rows, id 0 and the FATAL status section |
| `CgMinerResponse.Builder.AddValues` | foreman-cgminer/src/main/java/mn/foreman/cgminer/response/CgMinerResponse.java:189-192 | appends the row at the end, changes nothing else, returns the builder |
| `CgMinerResponse.Builder.SetId` | foreman-cgminer/src/main/java/mn/foreman/cgminer/response/CgMinerResponse.java:209-212 | replaces the id, changes nothing else, returns the builder |
| `CgMinerResponse.Builder.SetStatusSection` | foreman-cgminer/src/main/java/mn/foreman/cgminer/response/CgMinerResponse.java:221-225 | replaces the status section (null allowed), changes nothing else, returns the builder |
| `CgMinerResponse.Builder.Build` | foreman-cgminer/src/main/java/mn/foreman/cgminer/response/CgMinerResponse.java:195-200 | the result is BuilderState.Build of the builder's state; a built reply's rows are the builder's rows |
| `CgMinerResponse.BuildNewBuilder` | foreman-cgminer/src/main/java/mn/foreman/cgminer/response/CgMinerResponse.java:170-180 | building an untouched builder gives a FATAL reply with no rows and id 0, not a success and without values |
| `CgMinerResponse.BuildThenAddValues` | foreman-cgminer/src/main/java/mn/foreman/cgminer/response/CgMinerResponse.java:65 | adding a row after build leaves the built reply's rows as they were while the builder gains the row |
| `Validate.NotNull` | foreman-cgminer/src/main/java/mn/foreman/cgminer/response/CgMinerResponse.java:61-63 | passes iff the value is non-null; otherwise NullPointerException with the message |
| `Validate.NotEmpty` | foreman-pickaxe/src/main/java/mn/foreman/pickaxe/configuration/yml/YmlConfiguration.java:84-89 | passes iff the string is non-null and non-empty; null gives NullPointerException, empty gives IllegalArgumentException |
| `Validate.InclusiveBetween` | foreman-pickaxe/src/main/java/mn/foreman/pickaxe/configuration/yml/YmlConfiguration.java:90-92 | passes iff start <= value <= end; otherwise IllegalArgumentException with the message |
| `YmlConfiguration.ToConfigs` | foreman-pickaxe/src/main/java/mn/foreman/pickaxe/configuration/yml/YmlConfiguration.java:174-179 | a null list becomes the empty list; a list is copied with the same elements in the same order |
| `YmlConfiguration.NewConfiguration` | foreman-pickaxe/src/main/java/mn/foreman/pickaxe/configuration/yml/YmlConfiguration.java:71-105 | succeeds iff URL and API key are non-empty and the poll frequency is not negative; names the first failing check and its exception; the scalar getters return the arguments; every family getter returns the list under its own key, copied or empty |
| `YmlConfiguration.Family.Key` | foreman-pickaxe/src/main/java/mn/foreman/pickaxe/configuration/yml/YmlConfiguration.java:74-82 | each family's YAML key maps back to that family and no other, so no two families share a key |
| `YmlConfiguration.Configuration.Configs` | foreman-pickaxe/src/main/java/mn/foreman/pickaxe/configuration/yml/YmlConfiguration.java:107-164 | each family's getter returns that family's own field |
| `YmlConfiguration.Properties.Supplied` | foreman-pickaxe/src/main/java/mn/foreman/pickaxe/configuration/yml/YmlConfiguration.java:74-82 | a family's argument is the list under its own YAML key, and null iff that key has no list |
| `YmlConfiguration.GetterReadsOnlyOwnKey` | foreman-pickaxe/src/main/java/mn/foreman/pickaxe/configuration/yml/YmlConfiguration.java:74-103 | replacing or adding the list under any key other than a family's own leaves that family's getter unchanged |
| `YmlConfiguration.ZeroPollFrequencyAccepted` | foreman-pickaxe/src/main/java/mn/foreman/pickaxe/configuration/yml/YmlConfiguration.java:90-92 | a poll frequency of 0 is accepted |
| `JavaLang.ParseInt` | foreman-excavator/src/main/java/mn/foreman/excavator/ExcavatorFactory.java:20 | every failure is NumberFormatException carrying the input; success needs a non-null string whose first character is a digit or a sign followed by more, with digits after it, and a negative result needs a '-'; an unsigned digit string parses to its decimal value and succeeds iff that value is at most 2^31-1 |
| `JavaLang.ParseMinusSign` | foreman-excavator/src/main/java/mn/foreman/excavator/ExcavatorFactory.java:20 | '-' followed by digits parses to minus their value, and succeeds iff that value is at most 2^31 |
| `JavaLang.ParseIgnoresLeadingZeroAfterMinus` | foreman-excavator/src/main/java/mn/foreman/excavator/ExcavatorFactory.java:20 | a zero after a leading '-' changes neither the value nor whether parsing succeeds; "-0" parses to 0 |
| `JavaLang.ParseToDecimal` | foreman-excavator/src/main/java/mn/foreman/excavator/ExcavatorFactory.java:20 | parsing the decimal form of any integer n gives n back when n is in the int range and fails with NumberFormatException otherwise |
| `JavaLang.ParseIgnoresLeadingZero` | foreman-excavator/src/main/java/mn/foreman/excavator/ExcavatorFactory.java:20 | a leading zero does not change the parsed value or whether parsing succeeds |
| `JavaLang.ParsePlusSign` | foreman-excavator/src/main/java/mn/foreman/excavator/ExcavatorFactory.java:20 | a leading '+' is accepted and changes nothing; a second sign is refused |
| `JavaLang.ParseRejectsNonDigit` | foreman-excavator/src/main/java/mn/foreman/excavator/ExcavatorFactory.java:20 | a non-digit anywhere except a leading sign, or a lone sign, makes parsing fail |
| `ExcavatorFactory.Get` | foreman-excavator/src/main/java/mn/foreman/excavator/ExcavatorFactory.java:18-20 | a key's lookup is null iff the key is absent, else its value |
| `ExcavatorFactory.Create` | foreman-excavator/src/main/java/mn/foreman/excavator/ExcavatorFactory.java:16-21 | succeeds iff apiPort is present and parses as an int; a missing port fails as parseInt(null); name and apiIp are the looked-up values unchanged; the port is the parsed value |
| `ExcavatorFactory.CreateReadsOnlyItsKeys` | foreman-excavator/src/main/java/mn/foreman/excavator/ExcavatorFactory.java:16-21 | two maps that agree on name, apiIp and apiPort give the same result: other entries have no effect |
| `ExcavatorFactory.CreateFromCanonicalPort` | foreman-excavator/src/main/java/mn/foreman/excavator/ExcavatorFactory.java:17-20 | a map with a name, an address and a port in decimal gives an excavator with exactly those values; a port outside the int range is refused |
| `ExcavatorFactory.CreateRejectsNonNumericPort` | foreman-excavator/src/main/java/mn/foreman/excavator/ExcavatorFactory.java:20 | a port with a non-digit character, other than a leading sign, makes create fail with NumberFormatException |

## Left out

- Jackson deserialisation and serialisation: the property names and aliases (VERSION, STATS, POOLS), `@JsonInclude` and the no-argument constructor. A deserialised reply may lack rows, so `Response.values` is an `Option`. A reply with no status section is not modelled, because `isSuccess` would throw on it.
- `toString` of the reply, because it is only formatting.
- `Collections.unmodifiableList` wrapping: returned lists are immutable `seq` values. The copies that `build()` and `toConfigs` make therefore hold by value; object identity is not modelled.
- CgMinerResponse.BuildThenAddValues: holds because rows are `seq` values, so it cannot tell a copying `build()` from one that aliases the builder's list. The same goes for the copy in `YmlConfiguration.ToConfigs`: the model does not show that later changes to the caller's list leave the configuration alone.
- The row maps themselves are not copied by `build()` or `toConfigs`: only the list is. In Java, changing a map after `addValues` changes a reply already built. The model's maps are values, so it does not capture this sharing.
- Java lists and maps may hold null, such as `addValues(null)` or a null value under `apiPort`. The model's `seq<map<string, string>>` cannot represent either.
- Unknown YAML keys: `Properties.lists` may hold keys of no family, which the model ignores. How Jackson treats them is not modelled.
- `CgMinerStatusSection` and `CgMinerStatusCode` are not part of this model. The status section is reduced to its code and description and compared structurally.
- CgMinerResponse.StatusSection.HashCode: a stand-in. The real class is not part of this model, and a Java enum's hash code depends on object identity. It mixes the code's ordinal and the description's hash with `HashCodeBuilder`. Equal sections still hash alike, which is all the reply's hash relies on.
- The hash arithmetic in `JavaHash` carries no proof weight. `Equals` is equality of replies, so `EqualsAgreesWithHashCode` would hold for any function of the reply. The arithmetic is there only to make `HashCode` concrete.
- `equals` against an object of another class is not modelled: `Equals` takes a possibly-null reply.
- JavaLang.ParseInt: accepts only the ASCII digits '0'-'9'. Java's `Character.digit` also accepts other Unicode decimal digits, such as Arabic-Indic digits. The model refuses those.
- JavaLang.ParseInt: the text of `NumberFormatException`'s message is not modelled. The error carries the input instead.
- ExcavatorFactory.Create: a null configuration map, which would throw `NullPointerException`, is not modelled.
- ExcavatorFactory.Create: the `Excavator` constructor and any checks it makes are not modelled; the result is the triple passed to it. Polling, the network client, and the `Miner` and `MinerFactory` interfaces are also not modelled.
- Polling, sockets, timeouts and concurrent scheduling are outside these files and are I/O and concurrency.
