/**
 * `toOptions` of src/utils/toOptions.ts: every record of a list becomes a select option whose
 * label and value are the string forms of two of its fields, and whose key falls back to the
 * record's position when the value field is falsy.
 */
module ToOptions {
  import opened Wrappers
  import opened Text

  /** The JavaScript values a record field can hold; a missing field reads as `Undefined`. */
  datatype JsValue = Str(s: string) | Num(n: int) | Bool(b: bool) | Null | Undefined

  type Item = map<string, JsValue>

  datatype SelectOption = SelectOption(labelText: string, value: string, key: string)

  /** `item[k]`. */
  function Field(item: Item, k: string): JsValue
  {
    if k in item then item[k] else Undefined
  }

  /** JavaScript truthiness: `''`, `0`, `false`, `null` and `undefined` are falsy. */
  predicate Truthy(v: JsValue)
  {
    match v
    case Str(s) => s != ""
    case Num(n) => n != 0
    case Bool(b) => b
    case Null => false
    case Undefined => false
  }

  /** `String(v)`. */
  function JsString(v: JsValue): string
  {
    match v
    case Str(s) => s
    case Num(n) => if n < 0 then "-" + NatToString(-n) else NatToString(n)
    case Bool(b) => if b then "true" else "false"
    case Null => "null"
    case Undefined => "undefined"
  }

  /** `String(v || fallback)` for a string fallback. */
  function StringOr(v: JsValue, fallback: string): (r: string)
    ensures Truthy(v) ==> r != ""
  {
    if Truthy(v) then JsString(v) else fallback
  }

  /** The key of a record whose value field is falsy. */
  function PositionKey(index: nat): string
  {
    "option-" + NatToString(index)
  }

  /** The option built from the record at `index`. */
  function OptionOf(item: Item, index: nat, labelKey: string, valueKey: string): SelectOption
  {
    SelectOption(StringOr(Field(item, labelKey), ""), StringOr(Field(item, valueKey), ""), StringOr(Field(item, valueKey), PositionKey(index)))
  }

  /**
   * `toOptions(items, labelKey, valueKey)`. `None` stands for a `null`, `undefined` or
   * non-array argument, which gives `[]`.
   */
  function ToOptions(items: Option<seq<Item>>, labelKey: string, valueKey: string): (r: seq<SelectOption>)
    ensures items.None? ==> r == []
    ensures items.Some? ==> |r| == |items.value|
    ensures items.Some? ==> forall i :: 0 <= i < |r| ==>
      && (Truthy(Field(items.value[i], labelKey)) ==> r[i].labelText == JsString(Field(items.value[i], labelKey)))
      && (r[i].labelText == "" <==> !Truthy(Field(items.value[i], labelKey)))
      && (Truthy(Field(items.value[i], valueKey)) ==> r[i].value == r[i].key == JsString(Field(items.value[i], valueKey)))
      && (!Truthy(Field(items.value[i], valueKey)) ==> r[i].value == "" && r[i].key == PositionKey(i))
      && r[i].key != ""
  {
    match items
    case None => []
    case Some(xs) => seq(|xs|, i requires 0 <= i < |xs| => OptionOf(xs[i], i, labelKey, valueKey))
  }

  /** Records at different positions whose value fields are both falsy get different keys. */
  lemma PositionKeysDistinct(items: seq<Item>, labelKey: string, valueKey: string, i: nat, j: nat)
    requires i < j < |items|
    requires !Truthy(Field(items[i], valueKey)) && !Truthy(Field(items[j], valueKey))
    ensures ToOptions(Some(items), labelKey, valueKey)[i].key != ToOptions(Some(items), labelKey, valueKey)[j].key
  {
    var prefix := "option-";
    assert PositionKey(i)[|prefix|..] == NatToString(i);
    assert PositionKey(j)[|prefix|..] == NatToString(j);
  }
}
