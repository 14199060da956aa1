/** The slice of PHP's dynamic values and comparisons that the login flow relies on:
    session entries, decoded Graph bodies, table rows and the SDK's access-token object. */
module Php {

  datatype Option<+T> = None | Some(value: T)

  /** The SDK's `AccessToken` object: its string value and whether it is long-lived. */
  datatype AccessToken = AccessToken(value: string, longLived: bool)

  /** A PHP value as far as this core needs: scalars, string-keyed arrays and the one
      object class it handles. */
  datatype Value =
    | Null
    | Bool(b: bool)
    | Int(i: int)
    | Str(s: string)
    | Arr(m: map<string, Value>)
    | Obj(token: AccessToken)

  /** PHP's conversion to bool, as used by `if ($x)` and `!empty(...)`. */
  predicate Truthy(v: Value) {
    match v
    case Null => false
    case Bool(b) => b
    case Int(i) => i != 0
    case Str(s) => s != "" && s != "0"
    case Arr(m) => m != map[]
    case Obj(_) => true
  }

  /** `$m[$k]` on an array: the entry, or null when the key is missing. */
  function Lookup(m: map<string, Value>, k: string): (v: Value)
    ensures k in m ==> v == m[k]
    ensures k !in m ==> v == Null
  {
    if k in m then m[k] else Null
  }

  /** `!empty($m[$k])`: the key is present and its value is truthy. */
  predicate NonEmpty(m: map<string, Value>, k: string) {
    k in m && Truthy(m[k])
  }

  /** `$v == '' && $v == null` under PHP 8 loose comparison: only null, false and the
      empty string are loosely equal to both. */
  predicate LooselyBlank(v: Value) {
    v == Null || v == Bool(false) || v == Str("")
  }
}

/** The framework's session service: one key-value store per browser session, shared by
    every object that asks for it during a request. */
module Sessions {
  import opened Php

  /** What the browser's next request finds: the array, unless the session was destroyed. */
  function Kept(data: map<string, Value>, live: bool): (m: map<string, Value>)
    ensures live ==> m == data
    ensures !live ==> m == map[]
  {
    if live then data else map[]
  }

  class Session {
    /** The request's `$_SESSION` array. */
    var data: map<string, Value>
    /** Whether the stored session still exists, so that the array is saved at the end of the request. */
    var live: bool

    constructor (data: map<string, Value>)
      ensures this.data == data && live
    {
      this.data := data;
      live := true;
    }

    /** `get($key)`: null for a missing key. */
    function Get(key: string): Value
      reads this
    {
      Lookup(data, key)
    }

    method Set(key: string, v: Value)
      modifies this
      ensures data == old(data)[key := v] && live == old(live)
    {
      data := data[key := v];
    }

    method Remove(key: string)
      modifies this
      ensures data == old(data) - {key} && live == old(live)
    {
      data := data - {key};
    }

    /** `destroy()`, that is `session_destroy()`: the stored session is gone, but the
        request's array keeps its entries until the request ends. */
    method Destroy()
      modifies this
      ensures data == old(data) && !live
    {
      live := false;
    }
  }
}
