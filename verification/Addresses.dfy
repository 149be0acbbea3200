/** Listen addresses as strings: their order, and the port a listener was really given. */
module Addresses {
  import opened Results

  // ---------------------------------------------------------------- order

  /** The order strings sort in. */
  predicate Less(a: string, b: string)
    decreases |a|
  {
    b != [] && (a == [] || a[0] < b[0] || (a[0] == b[0] && Less(a[1..], b[1..])))
  }

  lemma {:induction false} LessIsTotal(a: string, b: string)
    ensures a == b || Less(a, b) || Less(b, a)
    ensures !(Less(a, b) && Less(b, a)) && !Less(a, a)
    decreases |a|
  {
    if a != [] {
      LessIsTotal(a[1..], if b == [] then [] else b[1..]);
      if b != [] && a[0] == b[0] && a[1..] == b[1..] {
        assert a == [a[0]] + a[1..] == b;
      }
    }
  }

  lemma {:induction false} LessIsTransitive(a: string, b: string, c: string)
    requires Less(a, b) && Less(b, c)
    ensures Less(a, c)
    decreases |a|
  {
    if a != [] && a[0] == b[0] == c[0] {
      LessIsTransitive(a[1..], b[1..], c[1..]);
    }
  }

  ghost predicate Increasing(s: seq<string>) {
    forall i, j | 0 <= i < j < |s| :: Less(s[i], s[j])
  }

  /** Puts `x` into its place among distinct sorted strings. */
  method Insert(sorted: seq<string>, x: string) returns (r: seq<string>)
    requires Increasing(sorted) && x !in sorted
    ensures Increasing(r)
    ensures forall y :: y in r <==> y == x || y in sorted
  {
    var k := 0;
    while k < |sorted| && Less(sorted[k], x)
      invariant 0 <= k <= |sorted|
      invariant forall i | 0 <= i < k :: Less(sorted[i], x)
    {
      k := k + 1;
    }
    forall i | k <= i < |sorted|
      ensures Less(x, sorted[i])
    {
      LessIsTotal(sorted[k], x);
      if i > k { LessIsTransitive(x, sorted[k], sorted[i]); }
    }
    r := sorted[..k] + [x] + sorted[k..];
    forall y
      ensures y in r <==> y == x || y in sorted
    {
      assert sorted == sorted[..k] + sorted[k..];
    }
  }

  /** Sorts distinct strings. */
  method Sort(order: seq<string>) returns (sorted: seq<string>)
    requires forall i, j | 0 <= i < j < |order| :: order[i] != order[j]
    ensures Increasing(sorted)
    ensures forall y :: y in sorted <==> y in order
  {
    sorted := [];
    for k := 0 to |order|
      invariant Increasing(sorted)
      invariant forall y :: y in sorted <==> y in order[..k]
    {
      assert order[k] !in order[..k];
      sorted := Insert(sorted, order[k]);
      assert order[..k + 1] == order[..k] + [order[k]];
    }
    assert order[..|order|] == order;
  }

  // ---------------------------------------------------------------- ports

  function Digit(d: nat): char
    requires d < 10
  {
    "0123456789"[d]
  }

  function Decimal(n: nat): (s: string)
    ensures s != []
  {
    if n < 10 then [Digit(n)] else Decimal(n / 10) + [Digit(n % 10)]
  }

  /** `rsplit_once(':')`: what stands before and after the last colon. */
  function SplitLastColon(s: string): (parts: Option<(string, string)>)
    ensures parts.Some? ==> s == parts.value.0 + ":" + parts.value.1 && ':' !in parts.value.1
    ensures parts.None? ==> ':' !in s
    decreases |s|
  {
    if s == [] then None
    else if s[|s| - 1] == ':' then Some((s[..|s| - 1], []))
    else match SplitLastColon(s[..|s| - 1])
      case None => None
      case Some((host, port)) => Some((host, port + [s[|s| - 1]]))
  }

  /** `with_port`: a port 0 becomes the one the operating system chose. */
  function WithPort(addr: string, port: nat): string {
    match SplitLastColon(addr)
    case Some((host, asked)) => if asked == "0" then host + ":" + Decimal(port) else addr
    case None => addr
  }

  lemma LastColonIsUnique(s: string, host: string, port: string)
    requires s == host + ":" + port && ':' !in port
    ensures SplitLastColon(s) == Some((host, port))
  {
    var (h, p) := SplitLastColon(s).value;
    assert forall i | |h| < i < |s| :: s[i] == p[i - |h| - 1] != ':';
    assert forall i | |host| < i < |s| :: s[i] == port[i - |host| - 1] != ':';
    assert s[|h|] == ':' && s[|host|] == ':';
    assert host == s[..|host|] && h == s[..|h|];
    assert port == s[|host| + 1..] && p == s[|h| + 1..];
  }

  /** Only the port changes, and only when it was 0: the host stays as configured. */
  lemma OnlyPortZeroIsRewritten(host: string, asked: string, port: nat)
    requires ':' !in asked
    ensures WithPort(host + ":" + asked, port) == host + ":" + (if asked == "0" then Decimal(port) else asked)
  {
    LastColonIsUnique(host + ":" + asked, host, asked);
  }
}
