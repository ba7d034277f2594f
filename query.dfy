/** Query strings as the site writes and reads them: a list of `key=value`
    pairs joined with `&`, read back with the `URLSearchParams` rules
    (empty segments skipped, split at the first `=`, `get` returns the first
    value). Percent- and `+`-decoding are not modelled; every lemma here
    requires text in which they would change nothing. */
module Query {
  import opened Wrappers
  import opened Strings

  type Pair = (string, string)

  /** One `key=value` segment. */
  function RenderPair(p: Pair): string {
    p.0 + "=" + p.1
  }

  function RenderPairs(ps: seq<Pair>): (r: seq<string>)
    ensures |r| == |ps|
    ensures forall k :: 0 <= k < |ps| ==> r[k] == RenderPair(ps[k])
  {
    seq(|ps|, k requires 0 <= k < |ps| => RenderPair(ps[k]))
  }

  lemma RenderFive(ps: seq<Pair>)
    requires |ps| == 5
    ensures RenderPairs(ps) == [RenderPair(ps[0]), RenderPair(ps[1]), RenderPair(ps[2]),
                                RenderPair(ps[3]), RenderPair(ps[4])]
  {
  }

  /** The text of a query string (after the `?`). */
  function Render(ps: seq<Pair>): string {
    Join(RenderPairs(ps), "&")
  }

  function IndexOf(s: string, c: char): (i: nat)
    requires c in s
    ensures i < |s| && s[i] == c && c !in s[..i]
  {
    if s[0] == c then 0 else 1 + IndexOf(s[1..], c)
  }

  /** A segment split at its first `=`; without one the value is empty. */
  function ParsePair(seg: string): (p: Pair)
    ensures '=' !in p.0
  {
    if '=' in seg then
      var i := IndexOf(seg, '=');
      (seg[..i], seg[i + 1..])
    else (seg, "")
  }

  function ParseSegments(segs: seq<string>): seq<Pair> {
    if segs == [] then []
    else if segs[0] == "" then ParseSegments(segs[1..])
    else [ParsePair(segs[0])] + ParseSegments(segs[1..])
  }

  /** `new URLSearchParams(q)` as a list of pairs, in order. */
  function Parse(q: string): seq<Pair> {
    ParseSegments(Split(q, '&'))
  }

  /** `params.get(key)`: the first value given for `key`, or `null`. */
  function Get(ps: seq<Pair>, key: string): (r: Option<string>)
    ensures r.Some? <==> exists k :: 0 <= k < |ps| && ps[k].0 == key
    ensures r.Some? ==> exists k :: 0 <= k < |ps| && ps[k] == (key, r.value)
  {
    if ps == [] then None
    else if ps[0].0 == key then Some(ps[0].1)
    else Get(ps[1..], key)
  }

  /** `params.getAll(key)`: every value given for `key`, in order. */
  function GetAll(ps: seq<Pair>, key: string): (r: seq<string>)
    ensures |r| <= |ps|
  {
    if ps == [] then []
    else (if ps[0].0 == key then [ps[0].1] else []) + GetAll(ps[1..], key)
  }

  /** Looking past a first pair whose key differs. */
  lemma GetCons(p: Pair, rest: seq<Pair>, key: string)
    ensures Get([p] + rest, key) == if p.0 == key then Some(p.1) else Get(rest, key)
    ensures GetAll([p] + rest, key) == (if p.0 == key then [p.1] else []) + GetAll(rest, key)
  {
    assert ([p] + rest)[1..] == rest;
  }

  /** Text that decoding leaves as it is and that cannot end a pair early. */
  predicate PlainValue(s: string) {
    '&' !in s && '%' !in s && '+' !in s
  }

  predicate PlainKey(s: string) {
    PlainValue(s) && '=' !in s
  }

  predicate PlainPairs(ps: seq<Pair>) {
    forall k :: 0 <= k < |ps| ==> PlainKey(ps[k].0) && PlainValue(ps[k].1)
  }

  lemma ParsePairRender(p: Pair)
    requires '=' !in p.0
    ensures ParsePair(RenderPair(p)) == p
  {
    var seg := RenderPair(p);
    assert seg[|p.0|] == '=';
    var i := IndexOf(seg, '=');
    assert seg[..|p.0|] == p.0;
    assert i == |p.0|;
    assert seg[i + 1..] == p.1;
  }

  /** Reading back a rendered query string gives the pairs that were written. */
  lemma {:induction false} ParseRender(ps: seq<Pair>)
    requires PlainPairs(ps)
    ensures Parse(Render(ps)) == ps
  {
    if ps == [] {
      assert Split("", '&') == [""];
    } else {
      var segs := RenderPairs(ps);
      forall k | 0 <= k < |segs|
        ensures '&' !in segs[k]
      {
        assert segs[k] == ps[k].0 + "=" + ps[k].1;
      }
      SplitJoin(segs, '&');
      SegmentsRender(ps);
    }
  }

  lemma {:induction false} SegmentsRender(ps: seq<Pair>)
    requires PlainPairs(ps)
    ensures ParseSegments(RenderPairs(ps)) == ps
  {
    if ps != [] {
      var segs := RenderPairs(ps);
      assert segs[0] == RenderPair(ps[0]) && segs[0] != "";
      ParsePairRender(ps[0]);
      assert segs[1..] == RenderPairs(ps[1..]);
      SegmentsRender(ps[1..]);
      assert [ps[0]] + ps[1..] == ps;
    }
  }
}
