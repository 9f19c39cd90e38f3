/**
 * Splitting a request target. make_uri takes the first match of
 *   (/?[^ #?]*)\x3f?([^ #]*)\x23?([^ ]*)
 * whose quantifiers are all greedy and whose every part may match the
 * empty string, so the match starts at offset 0 and takes the longest
 * path, then an optional '?', the longest query, an optional '#' and the
 * longest fragment. make_query iterates the matches of ([^=]*)=([^&]*)&?
 * and inserts each (key, value) pair into an ordered map.
 */
module Uri {

  datatype Uri = Uri(path: string, query: string, fragment: string)

  const PathStop: set<char> := {' ', '#', '?'}
  const QueryStop: set<char> := {' ', '#'}
  const FragmentStop: set<char> := {' '}

  /** Length of the longest prefix of s containing no character of stop. */
  function Span(s: string, stop: set<char>): (n: nat)
    ensures n <= |s|
    ensures forall i :: 0 <= i < n ==> s[i] !in stop
    ensures n == |s| || s[n] in stop
  {
    if s == [] || s[0] in stop then 0 else 1 + Span(s[1..], stop)
  }

  /** s without its first character when that character is c. */
  function Skip(s: string, c: char): string
  {
    if |s| > 0 && s[0] == c then s[1..] else s
  }

  predicate Avoids(s: string, stop: set<char>) { forall i :: 0 <= i < |s| ==> s[i] !in stop }

  /** make_uri(s): the three groups of the one match, which always exists. */
  function MakeUri(s: string): (u: Uri)
    ensures u.path <= s && Avoids(u.path, PathStop)
    ensures |u.path| == |s| || s[|u.path|] in PathStop
    ensures Avoids(u.query, QueryStop) && Avoids(u.fragment, FragmentStop)
    ensures u.query != [] ==> |u.path| < |s| && s[|u.path|] == '?'
  {
    var p := Span(s, PathStop);
    var afterPath := Skip(s[p..], '?');
    var q := Span(afterPath, QueryStop);
    var afterQuery := Skip(afterPath[q..], '#');
    var f := Span(afterQuery, FragmentStop);
    Uri(s[..p], afterPath[..q], afterQuery[..f])
  }

  /** The text that follows the path and, if present, the '?' after it. */
  function AfterPath(s: string): string
  {
    Skip(s[Span(s, PathStop)..], '?')
  }

  /** The query is the longest run after the '?' (if any) without ' ' or '#'. */
  lemma QueryIsMaximal(s: string)
    ensures MakeUri(s).query <= AfterPath(s)
    ensures var a := AfterPath(s); |MakeUri(s).query| == |a| || a[|MakeUri(s).query|] in QueryStop
  {
  }

  /**
   * A fragment is present only if a '#' directly follows the path and the
   * query, and it is the longest run after that '#' (if any) without ' '.
   */
  lemma FragmentNeedsHash(s: string)
    ensures var u := MakeUri(s); var a := AfterPath(s);
      u.fragment != [] ==> |u.query| < |a| && a[|u.query|] == '#'
    ensures var u := MakeUri(s); var a := AfterPath(s); var b := Skip(a[|u.query|..], '#');
      u.fragment <= b && (|u.fragment| == |b| || b[|u.fragment|] == ' ')
  {
  }

  /** The one-character text [c] if t starts with c (the separator the match consumes), else the empty text. */
  function Consumed(t: string, c: char): string
  {
    if |t| > 0 && t[0] == c then [c] else []
  }

  lemma SkipSplit(t: string, c: char)
    ensures t == Consumed(t, c) + Skip(t, c)
  {
  }

  lemma AvoidsSuffix(t: string, k: nat, stop: set<char>)
    requires Avoids(t, stop) && k <= |t|
    ensures Avoids(t[k..], stop) && Avoids(Skip(t[k..], '?'), stop) && Avoids(Skip(t[k..], '#'), stop)
  {
  }

  /**
   * For a target without spaces nothing is lost: the path, the '?' if it
   * was consumed, the query, the '#' if it was consumed and the fragment
   * spell s again.
   */
  lemma MakeUriCovers(s: string)
    requires Avoids(s, FragmentStop)
    ensures var u := MakeUri(s); var a := AfterPath(s);
      s == u.path + Consumed(s[|u.path|..], '?') + u.query + Consumed(a[|u.query|..], '#') + u.fragment
  {
    var p := Span(s, PathStop);
    var a := Skip(s[p..], '?');
    var q := Span(a, QueryStop);
    var b := Skip(a[q..], '#');
    assert MakeUri(s) == Uri(s[..p], a[..q], b[..Span(b, FragmentStop)]);
    AvoidsSuffix(s, p, FragmentStop);
    AvoidsSuffix(a, q, FragmentStop);
    NoStopSpansAll(b, FragmentStop);
    var c1, c2 := Consumed(s[p..], '?'), Consumed(a[q..], '#');
    SkipSplit(s[p..], '?');
    SkipSplit(a[q..], '#');
    SplitAt(s, p);
    SplitAt(a, q);
    Concat5(s, s[..p], c1, a[..q], c2, b, a, a[q..], s[p..]);
    assert b[..|b|] == b;
    assert AfterPath(s) == a;
  }

  lemma SplitAt(t: string, k: nat)
    requires k <= |t|
    ensures t == t[..k] + t[k..]
  {
  }

  lemma Concat5(s: string, x1: string, x2: string, x3: string, x4: string, x5: string, a: string, a2: string, s2: string)
    requires s == x1 + s2 && s2 == x2 + a && a == x3 + a2 && a2 == x4 + x5
    ensures s == x1 + x2 + x3 + x4 + x5
  {
  }

  lemma NoStopSpansAll(s: string, stop: set<char>)
    requires Avoids(s, stop)
    ensures Span(s, stop) == |s|
  {
    SpanOfConcat(s, [], stop);
    assert s + [] == s;
  }

  /** Composing a target from parts without separators and splitting it gives the parts back. */
  lemma MakeUriOfParts(path: string, query: string, fragment: string)
    requires Avoids(path, PathStop) && Avoids(query, QueryStop) && Avoids(fragment, FragmentStop)
    ensures MakeUri(path + "?" + query + "#" + fragment) == Uri(path, query, fragment)
  {
    var tail := "#" + fragment;
    var rest := "?" + (query + tail);
    var s := path + rest;
    assert s == path + "?" + query + "#" + fragment;
    SpanOfConcat(path, rest, PathStop);
    assert s[..|path|] == path && s[|path|..] == rest;
    var afterPath := Skip(rest, '?');
    assert afterPath == query + tail;
    SpanOfConcat(query, tail, QueryStop);
    assert afterPath[..|query|] == query && afterPath[|query|..] == tail;
    assert Skip(tail, '#') == fragment;
    NoStopSpansAll(fragment, FragmentStop);
    assert fragment[..|fragment|] == fragment;
  }

  /** A text free of stop characters, followed by a stop character or nothing, spans exactly itself. */
  lemma SpanOfConcat(a: string, b: string, stop: set<char>)
    requires Avoids(a, stop)
    requires b == [] || b[0] in stop
    ensures Span(a + b, stop) == |a|
  {
    assert forall i :: 0 <= i < |a| ==> (a + b)[i] == a[i];
    assert |a| == |a + b| || (a + b)[|a|] == b[0];
  }

  // ----- make_query -----

  type Pair = (string, string)

  /**
   * The (key, value) groups of the successive matches of ([^=]*)=([^&]*)&?.
   * A match needs an '='; from any position the leftmost match starts right
   * there, its key running up to the next '=' (it may contain '&'), its value
   * up to the next '&' (it may contain '='), and it swallows that '&'.
   */
  function QueryPairs(s: string): (ps: seq<Pair>)
    ensures forall i :: 0 <= i < |ps| ==> '=' !in ps[i].0 && '&' !in ps[i].1
    decreases |s|
  {
    var k := Span(s, {'='});
    if k == |s| then []
    else
      var rest := s[k + 1..];
      var v := Span(rest, {'&'});
      [(s[..k], rest[..v])] + QueryPairs(Skip(rest[v..], '&'))
  }

  /** Inserts the pairs in order into m; like std::map::insert, an existing key keeps its value. */
  function InsertAll(m: map<string, string>, ps: seq<Pair>): map<string, string>
    decreases |ps|
  {
    if ps == [] then m
    else InsertAll(if ps[0].0 in m then m else m[ps[0].0 := ps[0].1], ps[1..])
  }

  /** make_query(s): every match inserted in order into an initially empty map. */
  method MakeQuery(s: string) returns (res: map<string, string>)
    ensures res == InsertAll(map[], QueryPairs(s))
  {
    res := map[];
    var rest := s;
    while true
      invariant InsertAll(res, QueryPairs(rest)) == InsertAll(map[], QueryPairs(s))
      decreases |rest|
    {
      var k := Span(rest, {'='});
      if k == |rest| {
        return;
      }
      var afterEq := rest[k + 1..];
      var v := Span(afterEq, {'&'});
      var key, value := rest[..k], afterEq[..v];
      var next := Skip(afterEq[v..], '&');
      assert QueryPairs(rest) == [(key, value)] + QueryPairs(next);
      InsertAllCons(res, (key, value), QueryPairs(next));
      if key !in res {
        res := res[key := value];
      }
      rest := next;
    }
  }

  /** Inserting a first pair, then the others. */
  lemma InsertAllCons(m: map<string, string>, p: Pair, ps: seq<Pair>)
    ensures InsertAll(m, [p] + ps) == InsertAll(if p.0 in m then m else m[p.0 := p.1], ps)
  {
    assert ([p] + ps)[1..] == ps;
  }

  /** Every key of the result is free of '=' and every value free of '&'. */
  lemma {:induction false} InsertAllKeepsShape(m: map<string, string>, ps: seq<Pair>)
    requires forall k :: k in m ==> '=' !in k && '&' !in m[k]
    requires forall i :: 0 <= i < |ps| ==> '=' !in ps[i].0 && '&' !in ps[i].1
    ensures var r := InsertAll(m, ps); forall k :: k in r ==> '=' !in k && '&' !in r[k]
    decreases |ps|
  {
    if ps != [] {
      InsertAllKeepsShape(if ps[0].0 in m then m else m[ps[0].0 := ps[0].1], ps[1..]);
    }
  }

  lemma MakeQueryShape(s: string)
    ensures var r := InsertAll(map[], QueryPairs(s)); forall k :: k in r ==> '=' !in k && '&' !in r[k]
  {
    InsertAllKeepsShape(map[], QueryPairs(s));
  }

  /** A query without '=' yields no pair at all. */
  lemma MakeQueryWithoutEquals(s: string)
    requires '=' !in s
    ensures InsertAll(map[], QueryPairs(s)) == map[]
  {
    NoStopSpansAll(s, {'='});
  }

  /** k1=v1&k2=v2&...: pairs joined with '=' and '&'. */
  function Join(ps: seq<Pair>): string
  {
    if ps == [] then ""
    else if |ps| == 1 then ps[0].0 + "=" + ps[0].1
    else ps[0].0 + "=" + ps[0].1 + ("&" + Join(ps[1..]))
  }

  /** One match: a key without '=', the '=', a value without '&', then '&' or the end. */
  lemma QueryPairsCons(key: string, value: string, tail: string)
    requires '=' !in key && '&' !in value
    requires tail == [] || tail[0] == '&'
    ensures QueryPairs(key + "=" + value + tail) == [(key, value)] + QueryPairs(Skip(tail, '&'))
  {
    var s := key + "=" + value + tail;
    assert s == key + ("=" + (value + tail));
    SpanOfConcat(key, "=" + (value + tail), {'='});
    var rest := s[|key| + 1..];
    assert s[..|key|] == key;
    assert rest == value + tail;
    SpanOfConcat(value, tail, {'&'});
    assert rest[..|value|] == value && rest[|value|..] == tail;
  }

  /** Splitting a joined query gives the pairs back, when keys have no '=' and values no '&'. */
  lemma {:induction false} QueryPairsOfJoin(ps: seq<Pair>)
    requires forall i :: 0 <= i < |ps| ==> '=' !in ps[i].0 && '&' !in ps[i].1
    ensures QueryPairs(Join(ps)) == ps
    decreases |ps|
  {
    if |ps| == 1 {
      assert Join(ps) == ps[0].0 + "=" + ps[0].1 + "";
      QueryPairsCons(ps[0].0, ps[0].1, "");
      assert QueryPairs(Skip("", '&')) == [];
    } else if |ps| > 1 {
      var tail := "&" + Join(ps[1..]);
      assert Join(ps) == ps[0].0 + "=" + ps[0].1 + tail;
      QueryPairsCons(ps[0].0, ps[0].1, tail);
      assert Skip(tail, '&') == Join(ps[1..]);
      QueryPairsOfJoin(ps[1..]);
      assert ps == [ps[0]] + ps[1..];
    }
  }

  /** After inserting, a key maps to its value from the first pair that carries it (or from m). */
  lemma {:induction false} InsertAllFirstWins(m: map<string, string>, ps: seq<Pair>, i: nat)
    requires i < |ps|
    requires ps[i].0 !in m
    requires forall j :: 0 <= j < i ==> ps[j].0 != ps[i].0
    ensures ps[i].0 in InsertAll(m, ps) && InsertAll(m, ps)[ps[i].0] == ps[i].1
    decreases |ps|
  {
    var m' := if ps[0].0 in m then m else m[ps[0].0 := ps[0].1];
    if i == 0 {
      InsertAllKeeps(m', ps[1..], ps[0].0);
    } else {
      InsertAllFirstWins(m', ps[1..], i - 1);
    }
  }

  lemma {:induction false} InsertAllKeeps(m: map<string, string>, ps: seq<Pair>, k: string)
    requires k in m
    ensures k in InsertAll(m, ps) && InsertAll(m, ps)[k] == m[k]
    decreases |ps|
  {
    if ps != [] {
      InsertAllKeeps(if ps[0].0 in m then m else m[ps[0].0 := ps[0].1], ps[1..], k);
    }
  }

  /** The keys the pairs carry. */
  function KeysOf(ps: seq<Pair>): set<string>
  {
    set j | 0 <= j < |ps| :: ps[j].0
  }

  /** Inserting adds exactly the keys of the pairs. */
  lemma {:induction false} InsertAllKeys(m: map<string, string>, ps: seq<Pair>)
    ensures InsertAll(m, ps).Keys == m.Keys + KeysOf(ps)
    decreases |ps|
  {
    if ps != [] {
      var m' := if ps[0].0 in m then m else m[ps[0].0 := ps[0].1];
      InsertAllKeys(m', ps[1..]);
      assert KeysOf(ps) == {ps[0].0} + KeysOf(ps[1..]) by {
        forall k | k in KeysOf(ps) ensures k in {ps[0].0} + KeysOf(ps[1..]) {
          var j :| 0 <= j < |ps| && ps[j].0 == k;
          if j > 0 {
            assert ps[1..][j - 1] == ps[j];
          }
        }
        forall k | k in KeysOf(ps[1..]) ensures k in KeysOf(ps) {
          var j :| 0 <= j < |ps[1..]| && ps[1..][j].0 == k;
          assert ps[j + 1] == ps[1..][j];
        }
      }
    }
  }

  /**
   * make_query on k1=v1&k2=v2&... has exactly the keys k1, k2, ... and maps
   * every ki to the value of its first occurrence: a later duplicate does
   * not overwrite it.
   */
  lemma MakeQueryOfJoin(ps: seq<Pair>, i: nat)
    requires forall j :: 0 <= j < |ps| ==> '=' !in ps[j].0 && '&' !in ps[j].1
    requires i < |ps| && forall j :: 0 <= j < i ==> ps[j].0 != ps[i].0
    ensures var r := InsertAll(map[], QueryPairs(Join(ps)));
      && r.Keys == KeysOf(ps)
      && ps[i].0 in r && r[ps[i].0] == ps[i].1
  {
    QueryPairsOfJoin(ps);
    InsertAllKeys(map[], ps);
    InsertAllFirstWins(map[], ps, i);
  }
}
