/**
 * NormalKey: the plain DataKey implementation. Its value class is fixed when the
 * key is built; every change produces a fresh key through `Copy`.
 */
module NormalKeys {
  import opened Wrappers
  import opened DataKeys

  /** None of the optional parts beyond the default are set. */
  predicate Unconfigured(k: DataKey)
  {
    && k.decoder.None?
    && k.customGetter.None?
    && k.panelProvider.None?
    && k.displayLabel.None?
    && k.definition.None?
    && k.copyFunction.None?
    && k.customSetter.None?
    && k.extraData.None?
  }

  /** new NormalKey(id, aClass, defaultValue): only the name, class and default supplier are set. */
  function NewKeyWithDefault(id: string, aClass: JClass, defaultValue: Supplier): (k: DataKey)
    ensures k.name == id && GetValueClass(k) == aClass
    ensures k.defaultValue == Some(defaultValue) && Unconfigured(k)
    ensures HasDefaultValue(k) <==> !Supply(defaultValue).Null?
  {
    DataKey(id, aClass, Some(defaultValue), None, None, None, None, None, None, None, None)
  }

  /** new NormalKey(id, aClass): the installed default supplier yields null, so there is no default value. */
  function NewKey(id: string, aClass: JClass): (k: DataKey)
    ensures k.name == id && GetValueClass(k) == aClass
    ensures k.defaultValue == Some(Const(Null)) && !HasDefaultValue(k)
    ensures Unconfigured(k)
  {
    NewKeyWithDefault(id, aClass, Const(Null))
  }

  /** copy: a new key with the receiver's value class and every other part as supplied. */
  function Copy(k: DataKey, id: string, defaultValueProvider: Option<Supplier>, decoder: Option<StringCodec>,
                customGetter: Option<Handle>, panelProvider: Option<Handle>, displayLabel: Option<string>,
                definition: Option<StoreDefinition>, copyFunction: Option<Handle>,
                customSetter: Option<Handle>, extraData: Option<Handle>): (r: DataKey)
    ensures GetValueClass(r) == GetValueClass(k) && r.name == id
    ensures r.defaultValue == defaultValueProvider && r.decoder == decoder
    ensures r.customGetter == customGetter && r.panelProvider == panelProvider
    ensures r.displayLabel == displayLabel && r.definition == definition && r.copyFunction == copyFunction
    ensures r.customSetter == customSetter && r.extraData == extraData
  {
    DataKey(id, k.valueClass, defaultValueProvider, decoder, customGetter, panelProvider, displayLabel,
            definition, copyFunction, customSetter, extraData)
  }

  /** getValueClass: the class field, fixed when the key was built. */
  function GetValueClass(k: DataKey): (c: JClass)
    ensures c == k.valueClass
  {
    k.valueClass
  }

  /** Changing the default or the decoder is a copy that keeps every other part. */
  lemma {:induction false} SettersAreCopies(k: DataKey, s: Supplier, d: StringCodec)
    ensures SetDefault(k, s) == Copy(k, k.name, Some(s), k.decoder, k.customGetter, k.panelProvider,
                                     k.displayLabel, k.definition, k.copyFunction, k.customSetter, k.extraData)
    ensures SetDecoder(k, d) == Copy(k, k.name, k.defaultValue, Some(d), k.customGetter, k.panelProvider,
                                     k.displayLabel, k.definition, k.copyFunction, k.customSetter, k.extraData)
  {
  }

  /** The value class of any key survives every setter, so getTypeName never changes either. */
  lemma {:induction false} ValueClassIsFinal(k: DataKey, s: Supplier, d: StringCodec, text: string)
    ensures GetValueClass(SetDefault(k, s)) == GetValueClass(k)
    ensures GetValueClass(SetDecoder(k, d)) == GetValueClass(k)
    ensures SetDefaultString(k, text).Success? ==> GetValueClass(SetDefaultString(k, text).value) == GetValueClass(k)
    ensures GetTypeName(SetDefault(k, s)) == GetTypeName(k) && GetTypeName(SetDecoder(k, d)) == GetTypeName(k)
  {
  }
}
