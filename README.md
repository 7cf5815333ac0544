# specs-libs core in Dafny

This project models three parts of the SPeCS Java libraries and proves properties about them.

- **jOptions typed configuration.**
  - A `DataKey` is an immutable, named, typed slot. It has a value class, an optional lazily evaluated default and an optional string decoder. `NormalKey` is its plain implementation.
  - A `DataStore` holds the values stored under key names. A read falls back to the key's default unless the store is strict.
  - `DataKey.toString` renders a key, or a list of keys. It also renders a nested store's keys, indented.
- **`MultiMap`.** Each key maps to an ordered list of values. The lists are updated in place.
- **`EnumHelper`.** A table from strings to enum constants. It is seeded from each constant's `getString()`, minus an exclude list, and aliases can be added to it.

Layout:

| File | Contents |
|---|---|
| `wrappers.dfy` | `Option`, `Result` and `Outcome`, standing in for `Optional`, exceptions and `null`. |
| `strings.dfy` | Splitting text into lines (the `StringLines` reader used by the renderings), joining lines, and `Collectors.joining`. |
| `iteration.dfy` | `Enumerates`, a visiting order of a hash map's keys. |
| `data_key.dfy` | The value model and the `DataKey` default methods, including both `toString`s. |
| `normal_key.dfy` | `NormalKey`. |
| `data_store.dfy` | `DataStore`, as a class over a `map` from key names to values. |
| `multi_map.dfy` | `MultiMap`, as a class over a `map` from keys to sequences. |
| `enum_helper.dfy` | `EnumHelper`, as a class whose table is a `map` updated in place. |

Modelling choices:

- **Java classes.** A class is `JClass(name, simpleName)`. Every non-null value carries the set of class names it is an instance of. `Class.isInstance` is membership in that set, and every non-null value is an instance of `java.lang.Object`. `getSimpleName` is the `simpleName` field.
- **DataStore values.** The `Store` constructor of `Value` stands for the objects that are instances of `DataStore`. `WellFormed` ties the constructor to the `DataStore` name in the value's class set, and `StoreIsDataStoreInstance` proves that for well-formed values the constructor test is the `instanceof DataStore` test at `DataKey.java:162`.
- **Generic bounds.** The `E extends T` bound of `set`, `setIfNotPresent`, `add` and `replace` is a precondition `Fits(key, value)`: the value is null or an instance of the key's class. For `setString` the precondition is that the key's decoder yields such a value, which `StringCodec<T>` guarantees. With it, `set` and `add` prove that `get` then returns an object of the key's type (`DataStore.java:224`).
- **Default suppliers** are data: a fixed value, or `DecodeLater(codec, text)`. So the laziness of `setDefaultString` is visible in the key. The key holds the recipe, and the decoding runs only when `GetDefault` asks for it.
- **`getDefault`.** The key's supplier result is wrapped with `Optional.ofNullable`, so a supplier that yields `null` means "no default". The two-argument `NormalKey` constructor installs exactly such a supplier.
- **Unordered iteration.** Where the source walks a `HashMap`, the method picks keys one at a time. It returns the (ghost) order it used, and the result is proved against a function of that order. Examples: `flatValues`, `MultiMap.toString` and `getAvailableOptions`. `addAll` walks a hash map too, but its result does not depend on the order, so it returns none.
- **`DataKey.toString` follows the code.** It shows a one-line default as `= Optional[<text>]`, because it appends the `Optional` itself. The same `Optional` text is what the line count is taken of.
- **`get(key)` follows the Javadoc.** `DataStore.java:229` is an abstract declaration, so there is no code to follow. The model follows the comments at `DataStore.java:113-122` and `216-228`:
  - In a strict store, `get(key)` fails whenever no non-null value is stored, and ignores the key's default.
  - In a non-strict store, `get(key)` with nothing stored and no default fails ("throws an exception if it can't").

## Model

| member | source | states |
|---|---|---|
| DataKeys.GetDefault | jOptions/src/org/suikasoft/jOptions/Datakey/DataKey.java:73 | A default is never null, and a key with no supplier has no default. |
| DataKeys.HasDefaultValue | jOptions/src/org/suikasoft/jOptions/Datakey/DataKey.java:75-77 | Holds iff `getDefault` is present, i.e. a supplier is installed and does not yield null. |
| DataKeys.SetDefault | jOptions/src/org/suikasoft/jOptions/Datakey/DataKey.java:79-86 | The copy differs from the key only in its supplier. It keeps the name, and its default is the supplied value unless that is null. |
| DataKeys.SetDecoder | jOptions/src/org/suikasoft/jOptions/Datakey/DataKey.java:58-64 | The copy differs only in its decoder, and its default is unchanged. |
| DataKeys.SetDefaultString | jOptions/src/org/suikasoft/jOptions/Datakey/DataKey.java:88-94 | Fails with the "Can only use this method if a decoder was set before" message iff there is no decoder. Otherwise it returns a copy that differs only in its default. That default decodes the text, and the decoding is deferred until the default is requested. |
| DataKeys.GetTypeName | jOptions/src/org/suikasoft/jOptions/Datakey/DataKey.java:45-47 | The definition: the simple name of the key's value class. |
| DataKeys.StoreIsDataStoreInstance | jOptions/src/org/suikasoft/jOptions/Datakey/DataKey.java:162 | For a well-formed value, the `Store` constructor is exactly `instanceof DataStore`. |
| DataKeys.KeyToString | jOptions/src/org/suikasoft/jOptions/Datakey/DataKey.java:152-192 | The rendering of one key, which always starts with `name (SimpleName`. Its cases are stated by the rendering lemmas below. |
| DataKeys.KeysToString | jOptions/src/org/suikasoft/jOptions/Datakey/DataKey.java:194-204 | Empty exactly for no keys. Otherwise it starts with the first key's text and a newline. |
| DataKeys.NoDefaultRendering | jOptions/src/org/suikasoft/jOptions/Datakey/DataKey.java:152-192 | A key without a default renders as `name (SimpleName)`. |
| DataKeys.UndefinedStoreRendering | jOptions/src/org/suikasoft/jOptions/Datakey/DataKey.java:172-175 | A store default without a definition renders as `name (SimpleName - Undefined DataStore)`. |
| DataKeys.PlainDefaultRendering | jOptions/src/org/suikasoft/jOptions/Datakey/DataKey.java:176-185 | For a well-formed default that is not an instance of `DataStore`: if the default's text has no newline, the key renders as `name (SimpleName = Optional[text])`. Otherwise it renders as `name (SimpleName - has default value, but spans several lines)`. |
| DataKeys.NestedStoreRendering | jOptions/src/org/suikasoft/jOptions/Datakey/DataKey.java:162-171 | A store default with a definition renders as the closed header line, followed by every line of the nested key listing, each prefixed by three spaces. |
| DataKeys.KeyToStringEnd | jOptions/src/org/suikasoft/jOptions/Datakey/DataKey.java:152-192 | A key's text is never empty and never ends in a newline. |
| DataKeys.KeysToStringLines | jOptions/src/org/suikasoft/jOptions/Datakey/DataKey.java:194-204 | A listing of keys is each key's lines written one per line, in order. Reading it back as lines gives those lines again. |
| DataKeys.LinesIndent | jOptions/src/org/suikasoft/jOptions/Datakey/DataKey.java:169-171 | Appending lines with a newline and three spaces each, after a text that does not end in a newline, adds them as indented lines. |
| NormalKeys.NewKey | jOptions/src/org/suikasoft/jOptions/Datakey/NormalKey.java:38-40 | The key has the given name and class. Its installed supplier yields null, so it has no default value. All the other optional parts are unset. |
| NormalKeys.NewKeyWithDefault | jOptions/src/org/suikasoft/jOptions/Datakey/NormalKey.java:59-61 | The key has the given name, class and supplier. The decoder, getter, panel, label, definition, copy function, setter and extra data are unset. It has a default iff the supplier yields non-null. |
| NormalKeys.GetValueClass | jOptions/src/org/suikasoft/jOptions/Datakey/NormalKey.java:72-75 | The definition: the class given when the key was built. |
| NormalKeys.Copy | jOptions/src/org/suikasoft/jOptions/Datakey/NormalKey.java:63-70 | The new key keeps the receiver's value class, and every other part is as supplied. |
| NormalKeys.SettersAreCopies | jOptions/src/org/suikasoft/jOptions/Datakey/NormalKey.java:42-70 | `setDefault` and `setDecoder` are copies that change exactly one part. |
| NormalKeys.ValueClassIsFinal | jOptions/src/org/suikasoft/jOptions/Datakey/NormalKey.java:36-75 | For any key, setDefault, setDecoder and a successful setDefaultString keep its value class, and setDefault and setDecoder keep its type name. The class field is final. |
| DataStores.DataStore.constructor | jOptions/src/org/suikasoft/jOptions/Interfaces/DataStore.java:289-291 | A new store is named, empty and not strict. |
| DataStores.DataStore.HasValue | jOptions/src/org/suikasoft/jOptions/Interfaces/DataStore.java:239-244 | The definition: a non-null value is stored under the key's name. Defaults are not considered. |
| DataStores.DataStore.Get | jOptions/src/org/suikasoft/jOptions/Interfaces/DataStore.java:216-229 | Returns the stored value if one is stored. In strict mode it otherwise fails. In non-strict mode it returns the default, and fails iff there is none. A success is never null. |
| DataStores.DataStore.GetTry | jOptions/src/org/suikasoft/jOptions/Interfaces/DataStore.java:246-262 | Empty exactly when no non-null value is stored, so it never uses the default. When present, it is what `get` returns. |
| DataStores.DataStore.GetById | jOptions/src/org/suikasoft/jOptions/Interfaces/DataStore.java:266-273 | Returns the raw entry for the name. It is null exactly when no key of that name has a value. |
| DataStores.DataStore.KeysWithValues | jOptions/src/org/suikasoft/jOptions/Interfaces/DataStore.java:275-279 | A key's name is in the set exactly when the store has a value for that key. |
| DataStores.DataStore.Set | jOptions/src/org/suikasoft/jOptions/Interfaces/DataStore.java:38 | For a value that fits the key's class, stores it under the key's name and changes nothing else. Returns what getTry returned before. A non-null value is then what `get` returns, an instance of the key's class. |
| DataStores.DataStore.SetIfNotPresent | jOptions/src/org/suikasoft/jOptions/Interfaces/DataStore.java:46-52 | Leaves the store unchanged when the key has a value. Otherwise it acts as set. |
| DataStores.DataStore.SetRaw | jOptions/src/org/suikasoft/jOptions/Interfaces/DataStore.java:72-87 | Fails, with the store unchanged, iff the value is not an instance of the key's class. Otherwise it acts as set, and `get` then returns the value. |
| DataStores.DataStore.SetString | jOptions/src/org/suikasoft/jOptions/Interfaces/DataStore.java:96-102 | Fails, with the store unchanged, iff the key has no decoder. Otherwise it stores the decoded text, and `get` then returns it unless it is null. |
| DataStores.DataStore.Add | jOptions/src/org/suikasoft/jOptions/Interfaces/DataStore.java:149-154 | Fails, with the store unchanged, iff the key already has a value. Otherwise it acts as set, and a non-null value is then what `get` returns. |
| DataStores.DataStore.Replace | jOptions/src/org/suikasoft/jOptions/Interfaces/DataStore.java:182-187 | Fails, with the store unchanged, iff the key has no value yet. Otherwise it acts as set. |
| DataStores.DataStore.Remove | jOptions/src/org/suikasoft/jOptions/Interfaces/DataStore.java:231-237 | Removes the name's entry and returns what getTry returned. Afterwards the key has no value. |
| DataStores.DataStore.SetStrict | jOptions/src/org/suikasoft/jOptions/Interfaces/DataStore.java:113-123 | Switches strict mode and keeps the values. |
| DataStores.DataStore.AddAll | jOptions/src/org/suikasoft/jOptions/Interfaces/DataStore.java:156-172 | Afterwards every name of the source's raw map holds the source's value. Other names are unchanged. |
| DataStores.StoredValuesFollowName | jOptions/src/org/suikasoft/jOptions/Interfaces/DataStore.java:239-262 | Two keys with the same name see the same hasValue and getTry, whatever their class or default. |
| MultiMaps.MultiMap.constructor | SpecsUtils/src/pt/up/fe/specs/util/collections/MultiMap.java:48-50 | A new multimap has no keys. |
| MultiMaps.MultiMap.FromProvider | SpecsUtils/src/pt/up/fe/specs/util/collections/MultiMap.java:52-54 | Starts from the provider's map. |
| MultiMaps.MultiMap.Get | SpecsUtils/src/pt/up/fe/specs/util/collections/MultiMap.java:67-69 | Returns the key's list, or an empty list for an absent key. It is a read, so it inserts nothing. |
| MultiMaps.MultiMap.ContainsKey | SpecsUtils/src/pt/up/fe/specs/util/collections/MultiMap.java:181-183 | Holds iff the key is present. An absent key's `get` is empty. |
| MultiMaps.MultiMap.Put | SpecsUtils/src/pt/up/fe/specs/util/collections/MultiMap.java:79-87 | Appends the value to the key's list, creating the list if needed. Every other key's list and presence are unchanged. |
| MultiMaps.MultiMap.PutList | SpecsUtils/src/pt/up/fe/specs/util/collections/MultiMap.java:97-100 | The key's list becomes the given values, whatever it was before. |
| MultiMaps.MultiMap.Remove | SpecsUtils/src/pt/up/fe/specs/util/collections/MultiMap.java:143-145 | Returns the previous list, or nothing. Afterwards `containsKey` is false. |
| MultiMaps.MultiMap.Clear | SpecsUtils/src/pt/up/fe/specs/util/collections/MultiMap.java:185-187 | Afterwards no key is present. |
| MultiMaps.MultiMap.FlatValues | SpecsUtils/src/pt/up/fe/specs/util/collections/MultiMap.java:151-157 | The lists concatenated, in a visiting order that names each key once. The length is the total number of values. |
| MultiMaps.FlattenLength | SpecsUtils/src/pt/up/fe/specs/util/collections/MultiMap.java:151-157 | Whatever order the keys are visited in, the concatenation holds as many values as all the lists together. |
| MultiMaps.TotalSizeAnyKey | SpecsUtils/src/pt/up/fe/specs/util/collections/MultiMap.java:151-157 | The total number of values does not depend on which key is counted first. |
| MultiMaps.MultiMap.ToString | SpecsUtils/src/pt/up/fe/specs/util/collections/MultiMap.java:108-129 | One line per key, in a visiting order that names each key once. Each line is `key: ` followed by the values separated by `, ` (or `(empty)`), then `\n`. The text is empty exactly when there are no keys. |
| MultiMaps.ValuesLine | SpecsUtils/src/pt/up/fe/specs/util/collections/MultiMap.java:114-123 | The index loop builds the first value, or `(empty)`, then `, ` and each further value. |
| MultiMaps.ToStringLines | SpecsUtils/src/pt/up/fe/specs/util/collections/MultiMap.java:108-129 | When the map's own keys and the values in its lists render without newlines, the text reads back as exactly one line per key. |
| MultiMaps.MultiMap.Equals | SpecsUtils/src/pt/up/fe/specs/util/collections/MultiMap.java:163-174 | False for null. Otherwise it holds iff the two maps are equal, which is iff `get` and `containsKey` agree on every key. |
| EnumHelpers.BuildMap | SpecsUtils/src/pt/up/fe/specs/util/enums/EnumHelper.java:41 | The keys are exactly the constants' strings, and each leads to a constant with that string. |
| EnumHelpers.InitialTableSpec | SpecsUtils/src/pt/up/fe/specs/util/enums/EnumHelper.java:39-45 | A new helper knows exactly the constants' strings minus the excluded ones. When strings are distinct, each maps to the constant it came from. |
| EnumHelpers.EnumHelper.constructor | SpecsUtils/src/pt/up/fe/specs/util/enums/EnumHelper.java:35-37 | The table is the full built table. |
| EnumHelpers.EnumHelper.WithExclusions | SpecsUtils/src/pt/up/fe/specs/util/enums/EnumHelper.java:39-48 | The loop leaves the built table minus every excluded constant's string, and every entry is a constant. |
| EnumHelpers.EnumHelper.ValueOfTry | SpecsUtils/src/pt/up/fe/specs/util/enums/EnumHelper.java:85-89 | Present iff the table has the name, and then it is the mapped constant. |
| EnumHelpers.EnumHelper.ValueOf | SpecsUtils/src/pt/up/fe/specs/util/enums/EnumHelper.java:54-56 | Returns the constant valueOfTry finds, and fails exactly when it finds none. The error names the enum, the input and the table (lines 80-83). |
| EnumHelpers.EnumHelper.ValueOfIndex | SpecsUtils/src/pt/up/fe/specs/util/enums/EnumHelper.java:64-71 | Succeeds iff 0 <= index < size, with the constant at that position. An index at or past the size fails the explicit check, and a negative one fails the array access. |
| EnumHelpers.EnumHelper.ValueOfList | SpecsUtils/src/pt/up/fe/specs/util/enums/EnumHelper.java:91-95 | Succeeds iff every name is known, giving a list of the same length that agrees with valueOf pointwise. Otherwise it fails with the error of the first unknown name. |
| EnumHelpers.EnumHelper.GetAvailableOptions | SpecsUtils/src/pt/up/fe/specs/util/enums/EnumHelper.java:97-100 | The table's strings, in a visiting order that names each once, joined with `, `. An empty table gives the empty string, and a table of one string gives that string. |
| EnumHelpers.EnumHelper.AddAlias | SpecsUtils/src/pt/up/fe/specs/util/enums/EnumHelper.java:102-105 | Returns the same helper. The alias now maps to the constant, overriding any earlier entry, and the other entries are unchanged. |
| EnumHelpers.EnumHelper.GetSize | SpecsUtils/src/pt/up/fe/specs/util/enums/EnumHelper.java:107-109 | The number of constants, unaffected by exclusions or aliases. It is exactly the number of indices `valueOf(int)` accepts. |

## Left out

- `DataKey.getPanel`, `KeyPanelProvider` and every other GUI part. Panels, custom getters and setters, copy functions and extra data are opaque handles that the model carries but never runs.
- Custom getters and setters are not applied by `get` and `set`. `SimpleDataStore`, the class that would apply them, is not part of this model.
- `DataStore.set(DataStore)`, `setRaw(String, Object)` and `getStoreDefinition`. They are abstract here.
- The storage behind `set`, `hasValue`, `remove`, `getKeysWithValues` and `getValuesMap`. These are abstract in `DataStore.java` (`set` at line 38 has no Javadoc either), and their code lives in `SimpleDataStore`, which is not part of this model. The model assumes what that implementation is expected to do: values are stored by key name, `getValuesMap` returns that name-to-value map (which `get(String)` and `addAll` read through), and `set` and `remove` return what `getTry` returned before. The `DataStores.DataStore.Set` and `DataStores.DataStore.Remove` rows rest on this assumption, not on line 38.
- The `newInstance(StoreDefinition)`, `newInstance(StoreDefinitionProvider)`, `newInstance(DataView)` and `newInstance(String, DataStore)` factories. What they build depends on the `SimpleDataStore` constructors that take a store definition or another store, or on `DataStoreContainer`, and none of these is part of this model. `newInstance(String)` builds an empty named store and is modelled by `DataStores.DataStore.constructor`.
- DataStores.DataStore.AddAll: takes the source store's raw map directly. `DataView` and `KeyFactory.object` are not part of this model, and the keys it builds are plain `Object` keys with no default.
- DataStores.DataStore.SetRaw: a null value fails like any other value that is not an instance. The source would then fail with a `NullPointerException` while building its message.
- Error messages are exact only where the source spells them out in these files: `setDefaultString`, `setString`, `add` and `replace`. In those messages a key renders by `DataKey.toString`, assumed to be what `ADataKey.toString` calls. `KeysToString` rests on the same assumption: `DataKey.java:198` appends each key, which calls that key's `toString`, and the nested rendering at `DataKey.java:168` goes through it. Other errors carry the key name, the index or the table instead of the message text.
- DataKeys.StringCodec: decoders return a non-store value and never throw. A decoder that yields a `DataStore` would make the rendering of keys recurse without a structural bound.
- DataKeys.KeyToString: cyclic definitions are not modelled. In the source, a key whose default store's definition lists that same key (directly or through other keys) makes `DataKey.toString` recurse at `DataKey.java:168` until the stack overflows. Dafny datatypes cannot hold such a cycle, so the model's rendering always terminates.
- DataKeys.Value: only well-formed values (`WellFormed`) behave as in Java. A `Store` whose class set lacks the `DataStore` name, or an `Obj` whose set has it, does not stand for any Java object, and the rendering lemmas for plain defaults require well-formedness.
- Strings.Lines: splits on `\n` only, and a final `\n` ends the last line. `\r` handling is not modelled. `StringLines` is not part of this model.
- Java's `toString` of keys, values, enum constants and maps is a parameter or a field of the value (`show`, `showValue`, `text`). `HashMap.toString` in the `valueOf` error is carried as the map itself.
- HashMap iteration order is not fixed. Each walk returns the order it used, and its result is stated against that order.
- MultiMaps.MultiMap.Get: returns the list by value. In the source, `get` and `getMap` hand out the stored `ArrayList`, so outside mutation of that list through aliasing is not modelled. `getMap`, `keySet`, `values`, `entrySet` and `hashCode` are left out for the same reason.
- MultiMaps.MultiMap.Equals: compares only with another multimap of the same key and value types. `equals(Object)` with a non-multimap argument is false in the source and is not modelled.
- EnumHelpers.BuildMap: `SpecsEnums.buildMap` is not part of this model. It is modelled as a fold over the constants in declaration order where a later constant wins a shared string.
- `EnumHelper.getTranslationMap` is the `translationMap` field itself. The `newLazyHelper` factories and the `Lazy` wrapper around the constants are left out, because they only defer construction.
- `null` keys, names, aliases and enum constants are not modelled. Nor is Java's 32-bit `int`: indices are unbounded integers.
- `MarshalUtils`, the logger registry, `MessageType`, `AntResource` and `ANodeTransform` are outside the modelled core.
