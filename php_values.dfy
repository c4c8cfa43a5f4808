/** The PHP values a decoded manifest and an entrypoint list are made of.
    A PHP array is an ordered sequence of key/value items; JSON objects and
    JSON lists both decode to one (a list gets the keys "0", "1", ...). */
module PhpValues {
  import opened Wrappers

  datatype Value =
    | Str(s: string)
    | Arr(items: seq<Item>)
      /** integers, floats, booleans and null: none of them is a string or
          an array, which is all the resolver asks of a value */
    | Scalar

  datatype Item = Item(key: string, value: Value)

  /** `$array[$key]` guarded by `array_key_exists`: the value stored under
      `key`, or None when the array has no such key. PHP keeps keys unique,
      so the first item with the key is the one. */
  function Lookup(items: seq<Item>, key: string): Option<Value>
  {
    if items == [] then None
    else if items[0].key == key then Some(items[0].value)
    else Lookup(items[1..], key)
  }

  /** `array_key_exists`: a key is found exactly when some item has it,
      and then the value is that of the first such item. */
  lemma {:induction false} LookupSpec(items: seq<Item>, key: string)
    ensures Lookup(items, key).None? <==> forall i :: 0 <= i < |items| ==> items[i].key != key
    ensures Lookup(items, key).Some? ==>
              exists i :: 0 <= i < |items| && items[i] == Item(key, Lookup(items, key).value) &&
                          forall j :: 0 <= j < i ==> items[j].key != key
  {
    if items != [] && items[0].key != key {
      LookupSpec(items[1..], key);
      assert forall i :: 1 <= i < |items| ==> items[i] == items[1..][i - 1];
      if Lookup(items, key).Some? {
        var i :| 0 <= i < |items[1..]| && items[1..][i] == Item(key, Lookup(items, key).value) &&
                 forall j :: 0 <= j < i ==> items[1..][j].key != key;
        assert items[i + 1] == Item(key, Lookup(items, key).value);
        forall j | 0 <= j < i + 1 ensures items[j].key != key {
          if j > 0 { assert items[j] == items[1..][j - 1]; }
        }
      }
    } else if items != [] {
      assert items[0] == Item(key, items[0].value);
    }
  }

  /** The values of an array in iteration order (`foreach ($a as $v)`). */
  function Values(items: seq<Item>): (vs: seq<Value>)
    ensures |vs| == |items|
    ensures forall i :: 0 <= i < |items| ==> vs[i] == items[i].value
  {
    seq(|items|, i requires 0 <= i < |items| => items[i].value)
  }
}
