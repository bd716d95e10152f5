/**
 * Object names in the bucket: the printer used when a file is stored and the
 * parser that the ingest worker runs on the very same string.
 */
module ObjectNames {
  import opened Options

  predicate SlashFree(s: string) {
    '/' !in s
  }

  predicate IsDigit(c: char) {
    '0' <= c <= '9'
  }

  predicate AllDigits(s: string) {
    forall k :: 0 <= k < |s| ==> IsDigit(s[k])
  }

  /** Decimal rendering of a source id, as `%d` prints it. */
  function Decimal(n: nat): (s: string)
    ensures |s| > 0 && AllDigits(s) && (n > 0 ==> s[0] != '0') && (n == 0 ==> s == "0")
  {
    if n < 10 then [('0' as int + n) as char]
    else Decimal(n / 10) + [('0' as int + n % 10) as char]
  }

  /** The number a string of digits denotes. */
  function Value(s: string): nat
    requires AllDigits(s)
  {
    if s == "" then 0
    else 10 * Value(s[..|s| - 1]) + (s[|s| - 1] as int - '0' as int)
  }

  /** Python's `int` on an unsigned decimal string; `None` stands for its exception. */
  function ParseInt(s: string): Option<int> {
    if s != "" && AllDigits(s) then Some(Value(s)) else None
  }

  /** Python's `s.split("/")`. */
  function Split(s: string): (parts: seq<string>)
    ensures |parts| > 0
    ensures SlashFree(s) ==> parts == [s]
    ensures !SlashFree(s) ==> |parts| > 1
  {
    if s == "" then [""]
    else
      var rest := Split(s[1..]);
      assert s == [s[0]] + s[1..];
      if s[0] == '/' then [""] + rest else [[s[0]] + rest[0]] + rest[1..]
  }

  /** `owner/id/name`. */
  function ObjectName(owner: string, id: nat, name: string): string {
    owner + "/" + Decimal(id) + "/" + name
  }

  /** What the worker reads back: the second component, or 0 without any slash. */
  function SecondComponent(path: string): Option<int> {
    if SlashFree(path) then Some(0) else ParseInt(Split(path)[1])
  }

  lemma {:induction false} ValueOfDecimal(n: nat)
    ensures Value(Decimal(n)) == n
  {
    if n < 10 {
      assert Decimal(n)[..0] == "";
    } else {
      ValueOfDecimal(n / 10);
      var s := Decimal(n);
      assert s[..|s| - 1] == Decimal(n / 10);
    }
  }

  lemma {:induction false} SplitAfterSlash(a: string, rest: string)
    requires SlashFree(a)
    ensures Split(a + "/" + rest) == [a] + Split(rest)
  {
    var s := a + "/" + rest;
    if a == "" {
      assert s[1..] == rest;
    } else {
      assert SlashFree(a[1..]) by {
        assert forall c :: c in a[1..] ==> c in a;
      }
      SplitAfterSlash(a[1..], rest);
      assert s[1..] == a[1..] + "/" + rest;
      assert [a[0]] + a[1..] == a;
    }
  }

  lemma SecondOfTwo(first: string, tail: string)
    requires SlashFree(first)
    ensures SecondComponent(first) == Some(0)
    ensures SecondComponent(first + "/" + tail) == ParseInt(Split(tail)[0])
  {
    SplitAfterSlash(first, tail);
    assert (first + "/" + tail)[|first|] == '/';
    hide Split, ParseInt;
  }

  /** Of any path, only what stands between its first two slashes counts, and without a slash it is 0. */
  lemma SecondComponentExactly(first: string, second: string, rest: string)
    requires SlashFree(first) && SlashFree(second)
    ensures SecondComponent(first) == Some(0)
    ensures SecondComponent(first + "/" + second) == ParseInt(second)
    ensures SecondComponent(first + "/" + second + "/" + rest) == ParseInt(second)
  {
    hide ParseInt, SecondComponent;
    SecondOfTwo(first, second);
    SecondOfTwo(first, second + "/" + rest);
    SplitAfterSlash(second, rest);
    assert first + "/" + second + "/" + rest == first + "/" + (second + "/" + rest);
  }

  lemma DigitsAreSlashFree(s: string)
    requires AllDigits(s)
    ensures SlashFree(s)
  {}

  /** The shape of every object name seen through `split`. */
  lemma SplitObjectName(owner: string, id: nat, name: string)
    requires SlashFree(owner)
    ensures Split(ObjectName(owner, id, name)) == [owner, Decimal(id)] + Split(name)
    ensures !SlashFree(ObjectName(owner, id, name))
  {
    var digits := Decimal(id);
    var tail := digits + "/" + name;
    assert ObjectName(owner, id, name) == owner + "/" + tail;
    assert (owner + "/" + tail)[|owner|] == '/';
    assert Split(owner + "/" + tail) == [owner] + Split(tail) by { SplitAfterSlash(owner, tail); }
    assert Split(tail) == [digits] + Split(name) by {
      DigitsAreSlashFree(digits);
      SplitAfterSlash(digits, name);
    }
  }

  /** The worker's parser recovers exactly the printed source id. */
  lemma SecondComponentOfObjectName(owner: string, id: nat, name: string)
    requires SlashFree(owner)
    ensures SecondComponent(ObjectName(owner, id, name)) == Some(id)
    ensures ObjectName(owner, id, name) != ""
  {
    SplitObjectName(owner, id, name);
    ValueOfDecimal(id);
  }

  /** Distinct sources never share an object, whatever slashes their file names contain. */
  lemma ObjectNameInjective(o1: string, i1: nat, n1: string, o2: string, i2: nat, n2: string)
    requires SlashFree(o1) && SlashFree(o2)
    requires ObjectName(o1, i1, n1) == ObjectName(o2, i2, n2)
    ensures o1 == o2 && i1 == i2 && n1 == n2
  {
    SplitObjectName(o1, i1, n1);
    SplitObjectName(o2, i2, n2);
    var s1, s2 := Split(ObjectName(o1, i1, n1)), Split(ObjectName(o2, i2, n2));
    assert o1 == s1[0] == s2[0] == o2;
    assert Decimal(i1) == s1[1] == s2[1] == Decimal(i2);
    ValueOfDecimal(i1);
    ValueOfDecimal(i2);
    var prefix := o1 + "/" + Decimal(i1) + "/";
    assert ObjectName(o1, i1, n1) == prefix + n1;
    assert ObjectName(o2, i2, n2) == prefix + n2;
    assert n1 == (prefix + n1)[|prefix|..] == (prefix + n2)[|prefix|..] == n2;
  }

  /** Slash-free owners are needed: an owner that embeds `/id` collides with another source. */
  lemma SlashInOwnerCollides(a: string, j: nat, b: string, i: nat, name: string)
    ensures ObjectName(a + "/" + Decimal(j) + "/" + b, i, name)
         == ObjectName(a, j, b + "/" + Decimal(i) + "/" + name)
    ensures a + "/" + Decimal(j) + "/" + b != a
  {
    var left := ObjectName(a + "/" + Decimal(j) + "/" + b, i, name);
    var right := ObjectName(a, j, b + "/" + Decimal(i) + "/" + name);
    assert |left| == |right|;
    assert left == right;
    assert |a + "/" + Decimal(j) + "/" + b| > |a|;
  }
}
