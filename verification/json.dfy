/** JSON values as the routes receive them from `request.json()` and from the
    vendors' replies, with the JavaScript operations the source applies to
    them: optional-chaining member and index access, truthiness, property
    assignment and string conversion. */
module Json {
  import opened Wrappers
  import Strings

  /** A parsed JSON value. Numbers are integers (no fraction or exponent is
      inspected anywhere in the modelled logic). An object keeps its entries
      in `for...in` iteration order, which is the order `JSON.parse` created
      them in, with integer-like keys first; its keys are distinct. */
  datatype JVal =
    | JNull
    | JBool(b: bool)
    | JNum(n: int)
    | JStr(s: string)
    | JArr(elems: seq<JVal>)
    | JObj(entries: seq<(string, JVal)>)

  /** The value stored under `key` in an entry list (first match). */
  function Lookup<V>(entries: seq<(string, V)>, key: string): Option<V> {
    if |entries| == 0 then None
    else if entries[0].0 == key then Some(entries[0].1)
    else Lookup(entries[1..], key)
  }

  /** A key is found exactly when some entry carries it, and what is found
      is the value of such an entry. */
  lemma {:induction false} LookupFinds<V>(entries: seq<(string, V)>, key: string)
    ensures Lookup(entries, key).None? <==> forall i :: 0 <= i < |entries| ==> entries[i].0 != key
    ensures Lookup(entries, key).Some? ==> exists i :: 0 <= i < |entries| && entries[i] == (key, Lookup(entries, key).value)
  {
    if |entries| > 0 && entries[0].0 != key {
      LookupFinds(entries[1..], key);
      assert forall i :: 1 <= i < |entries| ==> entries[i] == entries[1..][i - 1];
    }
  }

  /** The first entry with the key gives the value. */
  lemma {:induction false} LookupAt<V>(entries: seq<(string, V)>, i: nat)
    requires i < |entries| && forall j :: 0 <= j < i ==> entries[j].0 != entries[i].0
    ensures Lookup(entries, entries[i].0) == Some(entries[i].1)
  {
    if i > 0 {
      LookupAt(entries[1..], i - 1);
    }
  }

  /** `obj[key] = value`: an existing key keeps its position and takes the new
      value, a new key is appended at the end. */
  function Assign<V>(entries: seq<(string, V)>, key: string, value: V): (r: seq<(string, V)>)
    ensures Lookup(r, key) == Some(value)
    ensures forall k :: k != key ==> Lookup(r, k) == Lookup(entries, k)
  {
    if |entries| == 0 then [(key, value)]
    else if entries[0].0 == key then [(key, value)] + entries[1..]
    else [entries[0]] + Assign(entries[1..], key, value)
  }

  /** `v?.key` for the named (non-index) keys the routes read. Arrays,
      strings and the other primitives have none of those as properties. */
  function Get(v: Option<JVal>, key: string): Option<JVal> {
    match v
    case Some(JObj(entries)) => Lookup(entries, key)
    case _ => None
  }

  /** `v?.[i]`. */
  function At(v: Option<JVal>, i: nat): Option<JVal> {
    match v
    case Some(JArr(elems)) => if i < |elems| then Some(elems[i]) else None
    case Some(JObj(entries)) => Lookup(entries, Strings.NatToString(i))
    case Some(JStr(s)) => if i < |s| then Some(JStr([s[i]])) else None
    case _ => None
  }

  /** `v?.length`. */
  function Length(v: Option<JVal>): Option<nat> {
    match v
    case Some(JArr(elems)) => Some(|elems|)
    case Some(JStr(s)) => Some(|s|)
    case Some(JObj(entries)) =>
      var len: Option<JVal> := Lookup(entries, "length");
      if len.Some? && len.value.JNum? && len.value.n >= 0 then Some(len.value.n as nat) else None
    case _ => None
  }

  /** JavaScript truthiness, with `None` standing for `undefined`. */
  predicate Truthy(v: Option<JVal>) {
    match v
    case None => false
    case Some(JNull) => false
    case Some(JBool(b)) => b
    case Some(JNum(n)) => n != 0
    case Some(JStr(s)) => |s| > 0
    case Some(JArr(_)) => true
    case Some(JObj(_)) => true
  }

  /** `undefined` or `null`: reading a property of it throws a TypeError. */
  predicate IsNullish(v: Option<JVal>) {
    v.None? || v == Some(JNull)
  }

  /** How `Array.prototype.join` writes one element: `null` becomes the empty
      string, a nested array is joined with commas. */
  function ElementString(v: JVal): string
    decreases v
  {
    match v
    case JNull => ""
    case JBool(b) => if b then "true" else "false"
    case JNum(n) => Strings.IntToString(n)
    case JStr(s) => s
    case JArr(elems) => Strings.Join(seq(|elems|, i requires 0 <= i < |elems| => ElementString(elems[i])), ",")
    case JObj(_) => "[object Object]"
  }

  /** `arr.join(sep)` for an array of JSON values. */
  function JoinValues(elems: seq<JVal>, sep: string): string {
    Strings.Join(seq(|elems|, i requires 0 <= i < |elems| => ElementString(elems[i])), sep)
  }

  /** Joining strings only is plain concatenation with the separator. */
  lemma {:induction false} JoinStrings(ss: seq<string>, sep: string)
    ensures JoinValues(seq(|ss|, i requires 0 <= i < |ss| => JStr(ss[i])), sep) == Strings.Join(ss, sep)
  {
    var elems := seq(|ss|, i requires 0 <= i < |ss| => JStr(ss[i]));
    assert seq(|elems|, i requires 0 <= i < |elems| => ElementString(elems[i])) == ss;
  }
}
