/**
 * The category tab routes: one route per fetched category name, keyed by a slug, the name
 * lower-cased with every maximal run of whitespace replaced by a single '-'.
 */
module Categories {
  import opened Wrappers

  /** The characters the regular-expression class `\s` matches. */
  predicate IsSpace(c: char) {
    || c == '\t' || c == '\n' || c == '\U{000B}' || c == '\U{000C}' || c == '\r' || c == ' '
    || c == '\U{00A0}' || c == '\U{1680}' || ('\U{2000}' <= c <= '\U{200A}')
    || c == '\U{2028}' || c == '\U{2029}' || c == '\U{202F}' || c == '\U{205F}'
    || c == '\U{3000}' || c == '\U{FEFF}'
  }

  predicate NoSpace(s: string) {
    forall i :: 0 <= i < |s| ==> !IsSpace(s[i])
  }

  /** Lower-casing of one character, for the Latin letters A to Z. */
  function Lower(c: char): (r: char)
    ensures IsSpace(r) <==> IsSpace(c)
    ensures 'a' <= r <= 'z' || r == c
    ensures r != c ==> 'A' <= c <= 'Z'
  {
    if 'A' <= c <= 'Z' then (c as int - 'A' as int + 'a' as int) as char else c
  }

  /** `toLowerCase()`, character by character. */
  function LowerAll(s: string): (r: string)
    ensures |r| == |s|
    ensures forall i :: 0 <= i < |s| ==> r[i] == Lower(s[i])
  {
    if s == [] then [] else [Lower(s[0])] + LowerAll(s[1..])
  }

  lemma LowerAllAppend(a: string, b: string)
    ensures LowerAll(a + b) == LowerAll(a) + LowerAll(b)
  {
    assert forall i :: 0 <= i < |a + b| ==> LowerAll(a + b)[i] == (LowerAll(a) + LowerAll(b))[i];
  }

  /** The text after its leading whitespace. */
  function DropSpaces(s: string): (r: string)
    ensures |r| <= |s|
    ensures r == [] || !IsSpace(r[0])
  {
    if s != [] && IsSpace(s[0]) then DropSpaces(s[1..]) else s
  }

  /** Exactly the leading whitespace run is dropped: what is left is a suffix, and all before it is whitespace. */
  lemma {:induction false} DropSpacesSuffix(s: string)
    ensures DropSpaces(s) == s[|s| - |DropSpaces(s)|..]
    ensures forall i :: 0 <= i < |s| - |DropSpaces(s)| ==> IsSpace(s[i])
    decreases |s|
  {
    if s != [] && IsSpace(s[0]) {
      DropSpacesSuffix(s[1..]);
      assert s[1..][|s[1..]| - |DropSpaces(s[1..])|..] == s[|s| - |DropSpaces(s)|..];
      forall i | 0 <= i < |s| - |DropSpaces(s)| ensures IsSpace(s[i]) {
        if i > 0 {
          assert s[i] == s[1..][i - 1];
        }
      }
    }
  }

  /** `replace(/\s+/g, '-')`: each maximal whitespace run becomes one '-'. */
  function Collapse(s: string): (r: string)
    ensures |r| <= |s|
    ensures r == [] <==> s == []
    decreases |s|
  {
    if s == [] then []
    else if IsSpace(s[0]) then "-" + Collapse(DropSpaces(s[1..]))
    else [s[0]] + Collapse(s[1..])
  }

  /** The route key of a category name. */
  function Slug(name: string): (r: string)
    ensures |r| <= |name|
    ensures r == [] <==> name == []
  {
    Collapse(LowerAll(name))
  }

  /** No route key contains whitespace. */
  lemma {:induction false} CollapseNoSpace(s: string)
    ensures NoSpace(Collapse(s))
    decreases |s|
  {
    if s == [] {
    } else if IsSpace(s[0]) {
      CollapseNoSpace(DropSpaces(s[1..]));
    } else {
      CollapseNoSpace(s[1..]);
    }
  }

  lemma SlugNoSpace(name: string)
    ensures NoSpace(Slug(name))
  {
    CollapseNoSpace(LowerAll(name));
  }

  /** A name without whitespace is left as it is by the replacement. */
  lemma {:induction false} CollapseKeepsSpaceless(s: string)
    requires NoSpace(s)
    ensures Collapse(s) == s
    decreases |s|
  {
    if s != [] {
      CollapseKeepsSpaceless(s[1..]);
    }
  }

  /** The key of a lower-case name without whitespace is the name itself. */
  lemma SlugOfPlainName(name: string)
    requires NoSpace(name)
    requires forall i :: 0 <= i < |name| ==> !('A' <= name[i] <= 'Z')
    ensures Slug(name) == name
  {
    assert LowerAll(name) == name;
    CollapseKeepsSpaceless(name);
  }

  /** Names that differ only in the case of their letters get the same key. */
  lemma SlugIgnoresCase(a: string, b: string)
    requires LowerAll(a) == LowerAll(b)
    ensures Slug(a) == Slug(b)
  {
  }

  /** A prefix made only of whitespace is skipped along with the whitespace after it. */
  lemma DropBlankPrefix(p: string, t: string)
    requires DropSpaces(p) == []
    ensures DropSpaces(p + t) == DropSpaces(t)
    decreases |p|
  {
    if p == [] {
      assert p + t == t;
    } else {
      assert (p + t)[1..] == p[1..] + t;
      DropBlankPrefix(p[1..], t);
    }
  }

  /** Skipping stops inside a prefix that is not all whitespace. */
  lemma DropWithinPrefix(p: string, t: string)
    requires DropSpaces(p) != []
    ensures DropSpaces(p + t) == DropSpaces(p) + t
    decreases |p|
  {
    if IsSpace(p[0]) {
      assert (p + t)[1..] == p[1..] + t;
      DropWithinPrefix(p[1..], t);
    }
  }

  lemma CollapseSpaceHead(c: char, t: string)
    requires IsSpace(c)
    ensures Collapse([c] + t) == "-" + Collapse(DropSpaces(t))
  {
    assert ([c] + t)[1..] == t;
  }

  lemma CollapseLetterHead(h: char, t: string)
    requires !IsSpace(h)
    ensures Collapse([h] + t) == [h] + Collapse(t)
  {
    assert ([h] + t)[1..] == t;
  }

  lemma WidenAtStart(c: char, d: char, q: string)
    requires IsSpace(c) && IsSpace(d)
    ensures Collapse([c] + q) == Collapse([c, d] + q)
  {
    CollapseSpaceHead(c, q);
    assert [c, d] + q == [c] + ([d] + q);
    CollapseSpaceHead(c, [d] + q);
    assert ([d] + q)[1..] == q;
  }

  lemma DropLeadingSpace(c: char, q: string)
    requires IsSpace(c)
    ensures DropSpaces([c] + q) == DropSpaces(q)
  {
    assert ([c] + q)[1..] == q;
  }

  /** After a run that swallows everything before `c`, both sides skip to the text after the run. */
  lemma WidenWholeRun(rest: string, c: char, d: char, q: string)
    requires IsSpace(c) && IsSpace(d) && DropSpaces(rest) == []
    ensures DropSpaces(rest + ([c] + q)) == DropSpaces(rest + ([c, d] + q))
  {
    DropBlankPrefix(rest, [c] + q);
    DropBlankPrefix(rest, [c, d] + q);
    DropLeadingSpace(c, q);
    assert [c, d] + q == [c] + ([d] + q);
    DropLeadingSpace(c, [d] + q);
    DropLeadingSpace(d, q);
  }

  /** What follows a leading run: the claim for the text after the run carries over. */
  lemma WidenTail(rest: string, c: char, d: char, q: string)
    requires IsSpace(c) && IsSpace(d)
    requires DropSpaces(rest) != [] ==>
               Collapse(DropSpaces(rest) + [c] + q) == Collapse(DropSpaces(rest) + [c, d] + q)
    ensures Collapse(DropSpaces(rest + [c] + q)) == Collapse(DropSpaces(rest + [c, d] + q))
  {
    assert rest + [c] + q == rest + ([c] + q);
    assert rest + [c, d] + q == rest + ([c, d] + q);
    if DropSpaces(rest) == [] {
      WidenWholeRun(rest, c, d, q);
    } else {
      var core := DropSpaces(rest);
      DropWithinPrefix(rest, [c] + q);
      DropWithinPrefix(rest, [c, d] + q);
      assert core + ([c] + q) == core + [c] + q;
      assert core + ([c, d] + q) == core + [c, d] + q;
    }
  }

  /** The step after a leading whitespace character, given the claim for the text after the run. */
  lemma WidenAfterSpace(h: char, rest: string, c: char, d: char, q: string)
    requires IsSpace(h) && IsSpace(c) && IsSpace(d)
    requires DropSpaces(rest) != [] ==>
               Collapse(DropSpaces(rest) + [c] + q) == Collapse(DropSpaces(rest) + [c, d] + q)
    ensures Collapse([h] + (rest + [c] + q)) == Collapse([h] + (rest + [c, d] + q))
  {
    CollapseSpaceHead(h, rest + [c] + q);
    CollapseSpaceHead(h, rest + [c, d] + q);
    WidenTail(rest, c, d, q);
  }

  /** Lengthening a whitespace run by one character does not change the result. */
  lemma {:induction false} CollapseWiden(p: string, c: char, d: char, q: string)
    requires IsSpace(c) && IsSpace(d)
    ensures Collapse(p + [c] + q) == Collapse(p + [c, d] + q)
    decreases |p|
  {
    if p == [] {
      assert p + [c] + q == [c] + q && p + [c, d] + q == [c, d] + q;
      WidenAtStart(c, d, q);
    } else {
      var h, rest := p[0], p[1..];
      assert p + [c] + q == [h] + (rest + [c] + q);
      assert p + [c, d] + q == [h] + (rest + [c, d] + q);
      if IsSpace(h) {
        if DropSpaces(rest) != [] {
          CollapseWiden(DropSpaces(rest), c, d, q);
        }
        WidenAfterSpace(h, rest, c, d, q);
      } else {
        CollapseLetterHead(h, rest + [c] + q);
        CollapseLetterHead(h, rest + [c, d] + q);
        CollapseWiden(rest, c, d, q);
      }
    }
  }

  /** Names that differ only in the length of a whitespace run get the same key. */
  lemma SlugIgnoresRunLength(p: string, c: char, d: char, q: string)
    requires IsSpace(c) && IsSpace(d)
    ensures Slug(p + [c] + q) == Slug(p + [c, d] + q)
  {
    LowerAllAppend(p + [c], q);
    LowerAllAppend(p, [c]);
    LowerAllAppend(p + [c, d], q);
    LowerAllAppend(p, [c, d]);
    assert LowerAll([c]) == [Lower(c)];
    assert LowerAll([c, d]) == [Lower(c), Lower(d)];
    CollapseWiden(LowerAll(p), Lower(c), Lower(d), LowerAll(q));
  }

  /** Text made only of whitespace is dropped entirely. */
  lemma {:induction false} DropAllSpaces(w: string)
    requires forall i :: 0 <= i < |w| ==> IsSpace(w[i])
    ensures DropSpaces(w) == []
    decreases |w|
  {
    if w != [] {
      RunTail(w);
      DropAllSpaces(w[1..]);
    }
  }

  /** Text ending in a non-space keeps that last character after its leading run is dropped. */
  lemma DropKeepsLast(s: string)
    requires s != [] && !IsSpace(s[|s| - 1])
    ensures DropSpaces(s) != [] && DropSpaces(s)[|DropSpaces(s)| - 1] == s[|s| - 1]
  {
    DropSpacesSuffix(s);
  }

  /** The whitespace after the first character of a run is all whitespace. */
  lemma RunTail(w: string)
    requires w != [] && forall i :: 0 <= i < |w| ==> IsSpace(w[i])
    ensures forall i :: 0 <= i < |w[1..]| ==> IsSpace(w[1..][i])
  {
    forall i | 0 <= i < |w[1..]| ensures IsSpace(w[1..][i]) {
      assert w[1..][i] == w[i + 1];
    }
  }

  /** Skipping the rest of a run lands on the text after it. */
  lemma SkipRest(t: string, q: string)
    requires forall i :: 0 <= i < |t| ==> IsSpace(t[i])
    requires q == [] || !IsSpace(q[0])
    ensures DropSpaces(t + q) == q
  {
    DropAllSpaces(t);
    DropBlankPrefix(t, q);
  }

  /** A run at the start becomes one '-', followed by the replacement of what comes after it. */
  lemma RunAtStart(w: string, q: string)
    requires w != [] && forall i :: 0 <= i < |w| ==> IsSpace(w[i])
    requires q == [] || !IsSpace(q[0])
    ensures Collapse(w + q) == "-" + Collapse(q)
  {
    RunTail(w);
    SkipRest(w[1..], q);
    assert w + q == [w[0]] + (w[1..] + q);
    CollapseSpaceHead(w[0], w[1..] + q);
  }

  /** The step for a leading space, given the claim for the text after the leading run. */
  lemma JoinSpaceStep(h: char, rest: string, t: string)
    requires IsSpace(h) && rest != [] && !IsSpace(rest[|rest| - 1])
    requires Collapse(DropSpaces(rest) + t) == Collapse(DropSpaces(rest)) + Collapse(t)
    ensures Collapse([h] + (rest + t)) == Collapse([h] + rest) + Collapse(t)
  {
    DropKeepsLast(rest);
    CollapseSpaceHead(h, rest + t);
    CollapseSpaceHead(h, rest);
    DropWithinPrefix(rest, t);
  }

  /** The step for a leading non-space, given the claim for the rest. */
  lemma JoinLetterStep(h: char, rest: string, t: string)
    requires !IsSpace(h)
    requires Collapse(rest + t) == Collapse(rest) + Collapse(t)
    ensures Collapse([h] + (rest + t)) == Collapse([h] + rest) + Collapse(t)
  {
    CollapseLetterHead(h, rest + t);
    CollapseLetterHead(h, rest);
  }

  /** No whitespace run crosses a boundary after a non-space: both sides are replaced on their own. */
  lemma {:induction false} CollapseJoin(p: string, t: string)
    requires p == [] || !IsSpace(p[|p| - 1])
    ensures Collapse(p + t) == Collapse(p) + Collapse(t)
    decreases |p|
  {
    if p == [] {
      assert p + t == t;
    } else {
      var h, rest := p[0], p[1..];
      assert p == [h] + rest;
      assert p + t == [h] + (rest + t);
      if IsSpace(h) {
        assert rest[|rest| - 1] == p[|p| - 1];
        DropKeepsLast(rest);
        CollapseJoin(DropSpaces(rest), t);
        JoinSpaceStep(h, rest, t);
      } else {
        assert rest == [] || rest[|rest| - 1] == p[|p| - 1];
        CollapseJoin(rest, t);
        JoinLetterStep(h, rest, t);
      }
    }
  }

  /**
   * A maximal whitespace run becomes exactly one '-': with the run `w` neither preceded nor
   * followed by whitespace, the text before and after it are replaced independently.
   */
  lemma CollapseRun(p: string, w: string, q: string)
    requires p == [] || !IsSpace(p[|p| - 1])
    requires w != [] && forall i :: 0 <= i < |w| ==> IsSpace(w[i])
    requires q == [] || !IsSpace(q[0])
    ensures Collapse(p + w + q) == Collapse(p) + "-" + Collapse(q)
  {
    var t := w + q;
    assert p + w + q == p + t;
    RunAtStart(w, q);
    CollapseJoin(p, t);
    assert Collapse(p) + ("-" + Collapse(q)) == Collapse(p) + "-" + Collapse(q);
  }

  /** The key of a name: the parts around a maximal whitespace run are keyed apart and joined by '-'. */
  lemma SlugRun(p: string, w: string, q: string)
    requires p == [] || !IsSpace(p[|p| - 1])
    requires w != [] && forall i :: 0 <= i < |w| ==> IsSpace(w[i])
    requires q == [] || !IsSpace(q[0])
    ensures Slug(p + w + q) == Slug(p) + "-" + Slug(q)
  {
    LowerAllAppend(p + w, q);
    LowerAllAppend(p, w);
    CollapseRun(LowerAll(p), LowerAll(w), LowerAll(q));
  }

  datatype Route = Route(key: string, title: string)

  /** `data.map(...)`: one route per name, in order. */
  function RoutesOf(names: seq<string>): (r: seq<Route>)
    ensures |r| == |names|
    ensures forall i :: 0 <= i < |names| ==> r[i] == Route(Slug(names[i]), names[i])
  {
    if names == [] then [] else [Route(Slug(names[0]), names[0])] + RoutesOf(names[1..])
  }

  /** The query's answer: `error` set, or `data` null or a list of names. */
  datatype Fetched = Fetched(failed: bool, data: Option<seq<string>>)

  datatype Tabs = Tabs(routes: seq<Route>, loading: bool)

  const INITIAL := Tabs([], true)

  /** fetchCategories: routes are replaced only by a successful, non-null answer; loading ends. */
  function AfterFetch(s: Tabs, f: Fetched): (r: Tabs)
    ensures !r.loading
    ensures !f.failed && f.data.Some? ==> r.routes == RoutesOf(f.data.value)
    ensures f.failed || f.data.None? ==> r.routes == s.routes
  {
    if !f.failed && f.data.Some? then Tabs(RoutesOf(f.data.value), false) else s.(loading := false)
  }

  /** At mount, a failed or empty answer leaves no tabs; every route key of a good one has no whitespace. */
  lemma FetchAtMount(f: Fetched)
    ensures f.failed || f.data.None? ==> AfterFetch(INITIAL, f) == Tabs([], false)
    ensures forall i :: 0 <= i < |AfterFetch(INITIAL, f).routes| ==> NoSpace(AfterFetch(INITIAL, f).routes[i].key)
  {
    forall i | 0 <= i < |AfterFetch(INITIAL, f).routes|
      ensures NoSpace(AfterFetch(INITIAL, f).routes[i].key)
    {
      SlugNoSpace(f.data.value[i]);
    }
  }
}
