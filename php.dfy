/**
 * The pieces of PHP's run-time semantics that the client relies on:
 * values stored in property and cache slots, truthiness, ordered arrays
 * with string keys, keyed assignment into plain arrays, and the `(int)`
 * cast of a string.
 */
module Php {

  /** A PHP value held in a property slot or a cache slot. */
  datatype Value = Null | Str(s: string) | Arr(items: seq<string>)

  /** PHP truthiness: null, "", "0" and the empty array are false. */
  predicate Truthy(v: Value) {
    match v
    case Null => false
    case Str(s) => s != "" && s != "0"
    case Arr(xs) => xs != []
  }

  /** PHP's `isset` on a slot: present and not null. */
  predicate IsSet(m: map<string, Value>, k: string) {
    k in m && !m[k].Null?
  }

  /** The slot's value, `null` when the key is absent. */
  function Lookup(m: map<string, Value>, k: string): Value {
    if k in m then m[k] else Null
  }

  /** The text PHP substitutes when the value is used as a string. */
  function ToText(v: Value): string {
    match v
    case Null => ""
    case Str(s) => s
    case Arr(_) => "Array"
  }

  /** A string key of a plain array, `null` read as "". */
  function TextAt(m: map<string, string>, k: string): (r: string)
    ensures k !in m ==> r == ""
    ensures k in m ==> r == m[k]
  {
    if k in m then m[k] else ""
  }

  /** `$v == null` under PHP's loose comparison. */
  predicate LooselyNull(v: Value) {
    v == Null || v == Str("") || v == Arr([])
  }

  /**
   * getAsArray: null (and whatever compares loosely equal to it) becomes
   * the empty list, a string becomes a one-element list, a list stays as it is.
   */
  function GetAsArray(v: Value): (r: seq<string>)
    ensures r == [] <==> LooselyNull(v)
    ensures v.Arr? ==> r == v.items
    ensures v.Str? && v.s != "" ==> r == [v.s]
    ensures |r| > 1 ==> v.Arr?
  {
    if LooselyNull(v) then []
    else if v.Str? then [v.s]
    else v.items
  }

  // ---------------------------------------------------------------------
  // Ordered arrays with string keys
  // ---------------------------------------------------------------------

  predicate UniqueKeys<V>(m: seq<(string, V)>) {
    forall i, j :: 0 <= i < j < |m| ==> m[i].0 != m[j].0
  }

  /** A PHP array with string keys: its entries in insertion order. */
  type PhpArray<V> = m: seq<(string, V)> | UniqueKeys(m) witness []

  function Keys<V>(m: seq<(string, V)>): (ks: seq<string>)
    ensures |ks| == |m|
    ensures forall i :: 0 <= i < |m| ==> ks[i] == m[i].0
  {
    if m == [] then [] else [m[0].0] + Keys(m[1..])
  }

  /** Position of key k, or -1. */
  function Find<V>(m: seq<(string, V)>, k: string): (i: int)
    ensures -1 <= i < |m|
    ensures i >= 0 ==> m[i].0 == k && forall j :: 0 <= j < i ==> m[j].0 != k
    ensures i == -1 ==> forall j :: 0 <= j < |m| ==> m[j].0 != k
  {
    if m == [] then -1
    else if m[0].0 == k then 0
    else
      var j := Find(m[1..], k);
      if j == -1 then -1 else j + 1
  }

  predicate Has<V>(m: seq<(string, V)>, k: string) {
    Find(m, k) >= 0
  }

  /** `$m[$k]`, with `absent` standing for the null an absent key reads as. */
  function Get<V>(m: seq<(string, V)>, k: string, absent: V): V {
    var i := Find(m, k);
    if i < 0 then absent else m[i].1
  }

  /** `$m[$k] = $v`: an existing key keeps its position, a new key is appended. */
  function Put<V>(m: PhpArray<V>, k: string, v: V): (r: PhpArray<V>)
    ensures Has(m, k) ==> Keys(r) == Keys(m)
    ensures !Has(m, k) ==> Keys(r) == Keys(m) + [k]
    ensures Get(r, k, v) == v && Has(r, k)
    ensures forall k' :: k' != k ==> Find(r, k') == Find(m, k')
    ensures forall j :: 0 <= j < |m| && m[j].0 != k ==> r[j] == m[j]
    ensures Has(m, k) ==> |r| == |m| && Find(r, k) == Find(m, k)
    ensures !Has(m, k) ==> r == m + [(k, v)]
  {
    PutFindsKey(m, k, v);
    PutFindsOthers(m, k, v);
    PutKeys(m, k, v);
    PutUnique(m, k, v);
    Assigned(m, k, v)
  }

  /** The entries after the assignment, before its key uniqueness is established. */
  function Assigned<V>(m: seq<(string, V)>, k: string, v: V): seq<(string, V)> {
    var i := Find(m, k);
    if i < 0 then m + [(k, v)] else m[i := (k, v)]
  }

  lemma PutFindsKey<V>(m: seq<(string, V)>, k: string, v: V)
    ensures Find(Assigned(m, k, v), k) == if Find(m, k) < 0 then |m| else Find(m, k)
    ensures Assigned(m, k, v)[Find(Assigned(m, k, v), k)] == (k, v)
  {
    var i := Find(m, k);
    FindUnique(Assigned(m, k, v), k, if i < 0 then |m| else i);
  }

  lemma PutFindsOthers<V>(m: seq<(string, V)>, k: string, v: V)
    ensures forall k' :: k' != k ==> Find(Assigned(m, k, v), k') == Find(m, k')
  {
    forall k' | k' != k ensures Find(Assigned(m, k, v), k') == Find(m, k') {
      FindAfterPut(m, Assigned(m, k, v), Find(m, k), k, k', v);
    }
  }

  lemma PutKeys<V>(m: seq<(string, V)>, k: string, v: V)
    ensures Find(m, k) >= 0 ==> Keys(Assigned(m, k, v)) == Keys(m)
    ensures Find(m, k) < 0 ==> Keys(Assigned(m, k, v)) == Keys(m) + [k]
  {
  }

  lemma PutUnique<V>(m: PhpArray<V>, k: string, v: V)
    ensures UniqueKeys(Assigned(m, k, v))
  {
  }

  /** Setting one key leaves what every other key reads as. */
  lemma PutGetOther<V>(m: PhpArray<V>, k: string, v: V, k': string, d: V)
    requires k' != k
    ensures Has(Put(m, k, v), k') <==> Has(m, k')
    ensures Get(Put(m, k, v), k', d) == Get(m, k', d)
  {
    var i := Find(m, k');
    if i >= 0 {
      assert Put(m, k, v)[i] == m[i];
    }
  }

  /** Find is determined by its two defining properties. */
  lemma FindUnique<V>(m: seq<(string, V)>, k: string, i: int)
    requires 0 <= i < |m| && m[i].0 == k
    requires forall j :: 0 <= j < i ==> m[j].0 != k
    ensures Find(m, k) == i
  {
  }

  lemma FindAfterPut<V>(m: seq<(string, V)>, r: seq<(string, V)>, i: int, k: string, k': string, v: V)
    requires i == Find(m, k) && k' != k
    requires r == Assigned(m, k, v)
    ensures Find(r, k') == Find(m, k')
  {
    assert |m| <= |r|;
    forall j | 0 <= j < |r| && r[j].0 == k' ensures j < |m| && m[j].0 == k' {
    }
    var fm := Find(m, k');
    if fm >= 0 {
      FindUnique(r, k', fm);
    }
  }

  /** array_merge for string keys: b's keys overwrite in place, new keys are appended. */
  function Merge<V>(a: PhpArray<V>, b: PhpArray<V>): (r: PhpArray<V>)
    decreases |b|
  {
    if b == [] then a else Merge(Put(a, b[0].0, b[0].1), b[1..])
  }

  lemma PutEntries<V>(m: PhpArray<V>, k: string, v: V)
    ensures forall j :: 0 <= j < |Put(m, k, v)| ==> Put(m, k, v)[j] == (k, v) || Put(m, k, v)[j] in m
  {
    var r := Put(m, k, v);
    forall j | 0 <= j < |r| ensures r[j] == (k, v) || r[j] in m {
      if j < |m| && m[j].0 != k {
        assert r[j] == m[j];
      }
    }
  }

  /** Every entry of the merge is an entry of one of the two arrays. */
  lemma {:induction false} MergeEntries<V>(a: PhpArray<V>, b: PhpArray<V>)
    ensures forall j :: 0 <= j < |Merge(a, b)| ==> Merge(a, b)[j] in a || Merge(a, b)[j] in b
    decreases |b|
  {
    if b != [] {
      var a' := Put(a, b[0].0, b[0].1);
      PutEntries(a, b[0].0, b[0].1);
      MergeEntries(a', b[1..]);
      forall j | 0 <= j < |Merge(a, b)| ensures Merge(a, b)[j] in a || Merge(a, b)[j] in b {
        var e := Merge(a, b)[j];
        if e in b[1..] {
          var l :| 0 <= l < |b[1..]| && b[1..][l] == e;
          assert b[l + 1] == e;
        } else if e !in a {
          assert e in a';
          var l :| 0 <= l < |a'| && a'[l] == e;
          assert e == b[0];
        }
      }
    }
  }

  /** The keys of the first array keep their order at the front of the merge. */
  lemma {:induction false} MergeKeepsOrder<V>(a: PhpArray<V>, b: PhpArray<V>)
    ensures |Keys(a)| <= |Keys(Merge(a, b))|
    ensures Keys(Merge(a, b))[..|Keys(a)|] == Keys(a)
    decreases |b|
  {
    if b != [] {
      var a' := Put(a, b[0].0, b[0].1);
      TailUnique(b);
      MergeKeepsOrder(a', b[1..]);
      PrefixOfPrefix(Keys(a), Keys(a'), Keys(Merge(a, b)));
    }
  }

  lemma TailUnique<V>(b: PhpArray<V>)
    requires b != []
    ensures UniqueKeys(b[1..])
  {
    forall i, j | 0 <= i < j < |b| - 1 ensures b[1..][i].0 != b[1..][j].0 {
      assert b[1..][i] == b[i + 1] && b[1..][j] == b[j + 1];
    }
  }

  lemma PrefixOfPrefix(x: seq<string>, y: seq<string>, z: seq<string>)
    requires |x| <= |y| && y[..|x|] == x
    requires |y| <= |z| && z[..|y|] == y
    ensures |x| <= |z| && z[..|x|] == x
  {
    assert z[..|x|] == z[..|y|][..|x|];
  }

  /** A key of the merge reads as b's value if b has it and as a's otherwise. */
  lemma {:induction false} MergeGet<V>(a: PhpArray<V>, b: PhpArray<V>, k: string, d: V)
    ensures Has(Merge(a, b), k) <==> Has(a, k) || Has(b, k)
    ensures Get(Merge(a, b), k, d) == if Has(b, k) then Get(b, k, d) else Get(a, k, d)
    decreases |b|
  {
    if b != [] {
      var a' := Put(a, b[0].0, b[0].1);
      MergeGet(a', b[1..], k, d);
      GetTail(b, k, d);
      if k != b[0].0 {
        PutGetOther(a, b[0].0, b[0].1, k, d);
      }
    }
  }

  /** How a key reads in an array and in the array without its first entry. */
  lemma GetTail<V>(b: PhpArray<V>, k: string, d: V)
    requires b != []
    ensures k == b[0].0 ==> Has(b, k) && Get(b, k, d) == b[0].1 && !Has(b[1..], k)
    ensures k != b[0].0 ==> (Has(b, k) <==> Has(b[1..], k)) && Get(b, k, d) == Get(b[1..], k, d)
  {
    if k == b[0].0 {
      forall j | 0 <= j < |b[1..]| ensures b[1..][j].0 != k {
        assert b[1..][j] == b[j + 1];
      }
    }
  }

  // ---------------------------------------------------------------------
  // Plain arrays filled by keyed assignment
  // ---------------------------------------------------------------------

  /** `$m[$k] = $v` for each pair, in order: a later pair overwrites an earlier one. */
  function Assign<V>(m: map<string, V>, ps: seq<(string, V)>): map<string, V>
    decreases |ps|
  {
    if ps == [] then m else Assign(m, ps[..|ps| - 1])[ps[|ps| - 1].0 := ps[|ps| - 1].1]
  }

  /** Position of the last pair with key k, or -1. */
  function LastIndex<V>(ps: seq<(string, V)>, k: string): (i: int)
    ensures -1 <= i < |ps|
    ensures i >= 0 ==> ps[i].0 == k && forall j :: i < j < |ps| ==> ps[j].0 != k
    ensures i == -1 ==> forall j :: 0 <= j < |ps| ==> ps[j].0 != k
    decreases |ps|
  {
    if ps == [] then -1
    else if ps[|ps| - 1].0 == k then |ps| - 1
    else LastIndex(ps[..|ps| - 1], k)
  }

  /** After the assignments a key holds the value of its last pair, or its old value if no pair names it. */
  lemma {:induction false} AssignLastWins<V>(m: map<string, V>, ps: seq<(string, V)>, k: string)
    ensures k in Assign(m, ps) <==> k in m || LastIndex(ps, k) >= 0
    ensures LastIndex(ps, k) >= 0 ==> Assign(m, ps)[k] == ps[LastIndex(ps, k)].1
    ensures LastIndex(ps, k) < 0 && k in m ==> Assign(m, ps)[k] == m[k]
    decreases |ps|
  {
    if ps != [] {
      AssignLastWins(m, ps[..|ps| - 1], k);
    }
  }

  /** Starting from an empty array, the key set is exactly the keys of the pairs. */
  lemma AssignKeys<V>(ps: seq<(string, V)>)
    ensures Assign(map[], ps).Keys == set i | 0 <= i < |ps| :: ps[i].0
  {
    var s := set i | 0 <= i < |ps| :: ps[i].0;
    forall k ensures k in Assign(map[], ps) <==> k in s {
      AssignLastWins(map[], ps, k);
      if LastIndex(ps, k) >= 0 {
        assert ps[LastIndex(ps, k)].0 in s;
      }
    }
  }

  // ---------------------------------------------------------------------
  // A list whose slots are references into a keyed array
  // ---------------------------------------------------------------------

  function KeyPairs<T>(items: seq<T>, key: T -> string): (ps: seq<(string, T)>)
    ensures |ps| == |items|
    ensures forall i :: 0 <= i < |items| ==> ps[i] == (key(items[i]), items[i])
  {
    seq(|items|, i requires 0 <= i < |items| => (key(items[i]), items[i]))
  }

  /** `$byId[key($x)] = $x` for each item in turn. */
  function ById<T>(items: seq<T>, key: T -> string): (m: map<string, T>)
    ensures forall i :: 0 <= i < |items| ==> key(items[i]) in m
  {
    var ps := KeyPairs(items, key);
    forall i | 0 <= i < |items| ensures key(items[i]) in Assign(map[], ps) {
      AssignLastWins(map[], ps, key(items[i]));
    }
    Assign(map[], ps)
  }

  /**
   * `$list[] = &$byId[key($x)]` for each item: after the loop every slot
   * reads the keyed array at its own item's key.
   */
  function RefSlots<T>(items: seq<T>, key: T -> string): (list: seq<T>)
    ensures |list| == |items|
  {
    var byId := ById(items, key);
    seq(|items|, i requires 0 <= i < |items| => byId[key(items[i])])
  }

  /**
   * A slot shows the last item with its item's key, so a slot whose key is
   * unique shows its own item, and it always agrees with the keyed array.
   */
  lemma RefSlotShowsLast<T>(items: seq<T>, key: T -> string, i: nat)
    requires i < |items|
    ensures exists j :: i <= j < |items| && RefSlots(items, key)[i] == items[j]
              && key(items[j]) == key(items[i])
              && forall l :: j < l < |items| ==> key(items[l]) != key(items[i])
    ensures (forall l :: 0 <= l < |items| && l != i ==> key(items[l]) != key(items[i]))
              ==> RefSlots(items, key)[i] == items[i]
    ensures RefSlots(items, key)[i] == ById(items, key)[key(items[i])]
  {
    var ps := KeyPairs(items, key);
    var k := key(items[i]);
    AssignLastWins(map[], ps, k);
    var j := LastIndex(ps, k);
    assert ps[i].0 == k;
    assert j >= i;
  }

  /** The keyed array has exactly the items' keys. */
  lemma ByIdKeys<T>(items: seq<T>, key: T -> string, k: string)
    ensures k in ById(items, key) <==> exists i :: 0 <= i < |items| && key(items[i]) == k
  {
    var ps := KeyPairs(items, key);
    AssignLastWins(map[], ps, k);
    if exists i :: 0 <= i < |items| && key(items[i]) == k {
      var i :| 0 <= i < |items| && key(items[i]) == k;
      assert ps[i].0 == k;
    }
  }

  // ---------------------------------------------------------------------
  // The (int) cast of a string
  // ---------------------------------------------------------------------

  predicate IsDigit(c: char) {
    '0' <= c <= '9'
  }

  /** The white space PHP skips before a number. */
  predicate IsSpace(c: char) {
    c == ' ' || c == '\t' || c == '\n' || c == '\r' || c == '\U{000B}' || c == '\U{000C}'
  }

  function SkipSpace(s: string): (r: string)
    ensures |r| <= |s| && r == s[|s| - |r|..]
    ensures r != [] ==> !IsSpace(r[0])
  {
    if s != [] && IsSpace(s[0]) then SkipSpace(s[1..]) else s
  }

  /** The longest prefix of decimal digits. */
  function LeadingDigits(s: string): (r: string)
    ensures r <= s
    ensures forall i :: 0 <= i < |r| ==> IsDigit(r[i])
    ensures |r| < |s| ==> !IsDigit(s[|r|])
  {
    if s != [] && IsDigit(s[0]) then [s[0]] + LeadingDigits(s[1..]) else []
  }

  function DigitsValue(ds: string): nat
    requires forall i :: 0 <= i < |ds| ==> IsDigit(ds[i])
    decreases |ds|
  {
    if ds == [] then 0
    else
      var last := ds[|ds| - 1];
      assert IsDigit(last);
      10 * DigitsValue(ds[..|ds| - 1]) + (last as int - '0' as int)
  }

  /** The range of a PHP integer on a 64-bit build. */
  const PHP_INT_MAX: int := 0x7FFF_FFFF_FFFF_FFFF
  const PHP_INT_MIN: int := -0x8000_0000_0000_0000

  /** A number outside PHP's integer range sticks at the nearer end of it. */
  function Saturate(x: int): (r: int)
    ensures PHP_INT_MIN <= r <= PHP_INT_MAX
    ensures PHP_INT_MIN <= x <= PHP_INT_MAX ==> r == x
    ensures x > PHP_INT_MAX ==> r == PHP_INT_MAX
    ensures x < PHP_INT_MIN ==> r == PHP_INT_MIN
  {
    if x > PHP_INT_MAX then PHP_INT_MAX else if x < PHP_INT_MIN then PHP_INT_MIN else x
  }

  /** The number `(int)` reads before it is fitted into PHP's range. */
  function ReadInt(s: string): int {
    var t := SkipSpace(s);
    if t != [] && t[0] == '-' then -(DigitsValue(LeadingDigits(t[1..])) as int)
    else if t != [] && t[0] == '+' then DigitsValue(LeadingDigits(t[1..]))
    else DigitsValue(LeadingDigits(t))
  }

  /**
   * `(int) $s`: leading white space, an optional sign, then the leading
   * decimal digits, saturated to PHP's integer range as strtol does (the
   * cast of PHP 7.0 and earlier); a string that starts with anything else
   * reads as 0.
   */
  function IntVal(s: string): int {
    Saturate(ReadInt(s))
  }

  /** The decimal numeral of n, as PHP prints a non-negative int. */
  function DecimalString(n: nat): (r: string)
    ensures r != [] && forall i :: 0 <= i < |r| ==> IsDigit(r[i])
  {
    if n < 10 then [('0' as int + n) as char]
    else DecimalString(n / 10) + [('0' as int + n % 10) as char]
  }

  lemma {:induction false} DigitsOfDecimal(n: nat)
    ensures DigitsValue(DecimalString(n)) == n
  {
    var r := DecimalString(n);
    if n >= 10 {
      DigitsOfDecimal(n / 10);
      assert r[..|r| - 1] == DecimalString(n / 10);
    }
  }

  /**
   * Reading back a printed count gives the count, with or without a minus
   * sign or leading blanks, as long as it fits in a PHP integer; beyond
   * that it sticks at PHP_INT_MAX (or PHP_INT_MIN with the sign).
   */
  lemma IntValRoundTrip(n: nat, blanks: string)
    requires forall i :: 0 <= i < |blanks| ==> IsSpace(blanks[i])
    ensures IntVal(blanks + DecimalString(n)) == if n <= PHP_INT_MAX then n else PHP_INT_MAX
    ensures IntVal(blanks + "-" + DecimalString(n)) == if n <= -PHP_INT_MIN then -(n as int) else PHP_INT_MIN
  {
    var d := DecimalString(n);
    DigitsOfDecimal(n);
    AllDigitsLeading(d);
    UnsignedDigits(blanks, d);
    SignedDigits(blanks, d);
  }

  lemma UnsignedDigits(blanks: string, d: string)
    requires forall i :: 0 <= i < |blanks| ==> IsSpace(blanks[i])
    requires d != [] && forall i :: 0 <= i < |d| ==> IsDigit(d[i])
    requires LeadingDigits(d) == d
    ensures ReadInt(blanks + d) == DigitsValue(d)
  {
    SkipBlanks(blanks, d);
  }

  lemma SignedDigits(blanks: string, d: string)
    requires forall i :: 0 <= i < |blanks| ==> IsSpace(blanks[i])
    requires forall i :: 0 <= i < |d| ==> IsDigit(d[i])
    requires LeadingDigits(d) == d
    ensures ReadInt(blanks + "-" + d) == -(DigitsValue(d) as int)
  {
    var t := "-" + d;
    assert t[0] == '-' && t[1..] == d;
    SkipBlanks(blanks, t);
    ConcatAssoc(blanks, "-", d);
    NegativeRead(blanks + t, t);
  }

  lemma NegativeRead(s: string, t: string)
    requires SkipSpace(s) == t && t != [] && t[0] == '-'
    ensures ReadInt(s) == -(DigitsValue(LeadingDigits(t[1..])) as int)
  {
  }

  /** Joining texts is associative; stated on plain strings so that no text is unfolded. */
  lemma ConcatAssoc(x: string, y: string, z: string)
    ensures x + y + z == x + (y + z)
  {
  }

  lemma {:induction false} SkipBlanks(blanks: string, t: string)
    requires forall i :: 0 <= i < |blanks| ==> IsSpace(blanks[i])
    requires t != [] && !IsSpace(t[0])
    ensures SkipSpace(blanks + t) == t
    decreases |blanks|
  {
    if blanks != [] {
      assert (blanks + t)[1..] == blanks[1..] + t;
      SkipBlanks(blanks[1..], t);
    }
  }

  lemma {:induction false} AllDigitsLeading(d: string)
    requires forall i :: 0 <= i < |d| ==> IsDigit(d[i])
    ensures LeadingDigits(d) == d
    decreases |d|
  {
    if d != [] {
      AllDigitsLeading(d[1..]);
    }
  }
}
