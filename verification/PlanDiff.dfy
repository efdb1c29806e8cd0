/** Which attributes a plan changes (`_diff_paths` in app/operation_activities.py): a bounded
    comparison of two trees and a tree of "known after apply" markers. */
module PlanDiff {
  import LedgerModel

  datatype Json = Null | Bool(b: bool) | Num(n: int) | Str(s: string)
                | Arr(items: seq<Json>) | Obj(fields: map<string, Json>)

  datatype Segment = Key(name: string) | Index(i: nat)
  type Path = seq<Segment>

  const MAX_DEPTH: nat := 3

  /** Python's truth of a marker. */
  predicate Truthy(v: Json) {
    match v
    case Null => false
    case Bool(b) => b
    case Num(n) => n != 0
    case Str(s) => s != ""
    case Arr(items) => items != []
    case Obj(fields) => fields.Keys != {}
  }

  /** The six empty values are the ones that do not mark anything. */
  lemma FalsyAre(v: Json)
    ensures !Truthy(v) <==>
      v.Null? || v == Bool(false) || v == Num(0) || v == Str("") || v == Arr([]) || v == Obj(map[])
  {
    if v.Obj? && v.fields.Keys == {} { assert v.fields == map[]; }
  }

  /** `node.get(key)` or `node[index]`, None when there is no such thing. */
  function Child(v: Json, s: Segment): Json {
    match s
    case Key(k) => if v.Obj? && k in v.fields then v.fields[k] else Null
    case Index(i) => if v.Arr? && i < |v.items| then v.items[i] else Null
  }

  function KeysOf(v: Json): set<string> { if v.Obj? then v.fields.Keys else {} }

  function LengthOf(v: Json): nat { if v.Arr? then |v.items| else 0 }

  function Longest(a: nat, b: nat, c: nat): nat {
    var ab := if a < b then b else a;
    if ab < c then c else ab
  }

  /** The segments the comparison descends into: all keys when any of the three is a mapping, else
      all indices when any is a list. */
  function Segments(before: Json, after: Json, unknown: Json): set<Segment> {
    if before.Obj? || after.Obj? || unknown.Obj? then
      set k | k in KeysOf(before) + KeysOf(after) + KeysOf(unknown) :: Key(k)
    else
      set i | 0 <= i < Longest(LengthOf(before), LengthOf(after), LengthOf(unknown)) :: Index(i)
  }

  predicate Container(v: Json) { v.Obj? || v.Arr? }

  /** Worth descending into: `u or b != a`. */
  predicate Touched(before: Json, after: Json, unknown: Json) { Truthy(unknown) || before != after }

  /** `_diff_paths`. */
  function DiffPaths(before: Json, after: Json, unknown: Json, prefix: Path): set<Path>
    decreases if |prefix| < MAX_DEPTH then MAX_DEPTH - |prefix| else 0
  {
    if |prefix| >= MAX_DEPTH then {prefix[..MAX_DEPTH]}
    else if unknown == Bool(true) then if prefix != [] then {prefix} else {}
    else if Container(before) || Container(after) || Container(unknown) then
      set s, p | s in Segments(before, after, unknown)
                 && Touched(Child(before, s), Child(after, s), Child(unknown, s))
                 && p in DiffPaths(Child(before, s), Child(after, s), Child(unknown, s), prefix + [s]) :: p
    else if before != after then {prefix} else {}
  }

  // ----- Rendering -----

  function Digits(n: nat): string {
    if n < 10 then [('0' as int + n) as char] else Digits(n / 10) + Digits(n % 10)
  }

  /** `render_path`; None where it would fail, on a path that starts with an index. */
  function Render(path: Path): LedgerModel.Option<string> {
    if path == [] then LedgerModel.Some("")
    else
      var earlier, last := Render(path[..|path| - 1]), path[|path| - 1];
      if earlier.None? then LedgerModel.None
      else if last.Index? then
        if |path| == 1 then LedgerModel.None else LedgerModel.Some(earlier.value + "[" + Digits(last.i) + "]")
      else if |path| == 1 then LedgerModel.Some(last.name) else LedgerModel.Some(earlier.value + "." + last.name)
  }

  lemma {:induction false} KeyedPathsRender(path: Path)
    requires path != [] && path[0].Key?
    ensures Render(path).Some?
  {
    if |path| > 1 {
      assert path[..|path| - 1][0] == path[0];
      KeyedPathsRender(path[..|path| - 1]);
    } else {
      assert path[..0] == [];
    }
  }

  /** No name has a dot or an opening bracket, and the path starts with a name. */
  ghost predicate Legible(path: Path) {
    path != [] && path[0].Key? && forall i :: 0 <= i < |path| && path[i].Key? ==> Unmarked(path[i].name)
  }

  ghost predicate Unmarked(text: string) { forall i :: 0 <= i < |text| ==> text[i] != '.' && text[i] != '[' }

  /** After the last mark there is no other. */
  lemma NoLaterMark(a: string, b: string, c: char, d: char, x: string, y: string)
    requires a + [c] + x == b + [d] + y && Unmarked(x) && (d == '.' || d == '[')
    ensures |b| <= |a|
  {
    assert (b + [d] + y)[|b|] == d;
    UnmarkedAfter(a, c, x);
  }

  lemma UnmarkedAfter(a: string, c: char, x: string)
    requires Unmarked(x)
    ensures var text := a + [c] + x; forall i :: |a| < i < |text| ==> text[i] != '.' && text[i] != '['
  {
  }

  /** So what is before and after the last mark is determined. */
  lemma LastMarkIsOne(a: string, b: string, c: char, d: char, x: string, y: string)
    requires a + [c] + x == b + [d] + y && Unmarked(x) && Unmarked(y)
    requires (c == '.' || c == '[') && (d == '.' || d == '[')
    ensures a == b && c == d && x == y
  {
    NoLaterMark(a, b, c, d, x, y);
    NoLaterMark(b, a, d, c, y, x);
    var text := a + [c] + x;
    assert text[|a|] == c && text[|b|] == d;
    assert a == text[..|a|] && b == text[..|b|] && x == text[|a| + 1..] && y == text[|b| + 1..];
  }

  lemma {:induction false} DigitsAreUnmarked(n: nat)
    ensures Digits(n) != [] && forall i :: 0 <= i < |Digits(n)| ==> '0' <= Digits(n)[i] <= '9'
  {
    if n >= 10 { DigitsAreUnmarked(n / 10); }
  }

  lemma {:induction false} DigitsTellApart(n: nat, m: nat)
    requires Digits(n) == Digits(m)
    ensures n == m
  {
    DigitsAreUnmarked(n / 10);
    DigitsAreUnmarked(m / 10);
    if n >= 10 && m >= 10 {
      var x, y := Digits(n / 10), Digits(m / 10);
      assert |Digits(n % 10)| == 1 && |Digits(m % 10)| == 1;
      assert Digits(n)[..|x|] == x && Digits(m)[..|y|] == y;
      assert Digits(n)[|x|] == Digits(n % 10)[0] && Digits(m)[|y|] == Digits(m % 10)[0];
      DigitsTellApart(n / 10, m / 10);
    }
  }

  /** What the last segment adds: a mark, and text without one. */
  function Tail(last: Segment): string { if last.Index? then Digits(last.i) + "]" else last.name }

  function Mark(last: Segment): char { if last.Index? then '[' else '.' }

  lemma {:induction false} RenderEnds(path: Path)
    requires Legible(path)
    ensures Render(path).Some? && Unmarked(Tail(path[|path| - 1]))
    ensures |path| == 1 ==> Render(path).value == Tail(path[0])
    ensures |path| > 1 ==>
      && Legible(path[..|path| - 1]) && Render(path[..|path| - 1]).Some?
      && Render(path).value
         == Render(path[..|path| - 1]).value + [Mark(path[|path| - 1])] + Tail(path[|path| - 1])
  {
    KeyedPathsRender(path);
    var last := path[|path| - 1];
    if last.Index? { DigitsAreUnmarked(last.i); }
    if |path| > 1 {
      KeyedPathsRender(path[..|path| - 1]);
      if last.Index? { assert "[" + Digits(last.i) + "]" == ['['] + Tail(last); }
    } else {
      assert path[..0] == [];
    }
  }

  lemma TailsTellApart(a: Segment, b: Segment)
    requires Tail(a) == Tail(b) && Mark(a) == Mark(b)
    ensures a == b
  {
    if a.Index? {
      assert Tail(a)[..|Tail(a)| - 1] == Digits(a.i) && Tail(b)[..|Tail(b)| - 1] == Digits(b.i);
      DigitsTellApart(a.i, b.i);
    }
  }

  /** Two legible paths that render alike are the same path: the text names the place. */
  lemma {:induction false} RenderTellsApart(p: Path, q: Path)
    requires Legible(p) && Legible(q) && Render(p) == Render(q)
    ensures p == q
  {
    hide Render, Legible;
    RenderEnds(p);
    RenderEnds(q);
    StartsWithName(p);
    StartsWithName(q);
    if |p| == 1 || |q| == 1 {
      OnlyOne(p, q);
    } else {
      var n, m := |p| - 1, |q| - 1;
      LastMarkIsOne(Render(p[..n]).value, Render(q[..m]).value, Mark(p[n]), Mark(q[m]), Tail(p[n]), Tail(q[m]));
      TailsTellApart(p[n], q[m]);
      RenderTellsApart(p[..n], q[..m]);
      assert p == p[..n] + [p[n]] && q == q[..m] + [q[m]];
    }
  }

  lemma StartsWithName(p: Path)
    requires Legible(p)
    ensures p != [] && p[0].Key?
  {
  }

  /** A text without a mark is a single name. */
  lemma {:induction false} MarkedUnlessOne(p: Path)
    requires Legible(p)
    ensures Render(p).Some? && (Unmarked(Render(p).value) <==> |p| == 1)
  {
    hide Render;
    RenderEnds(p);
    if |p| > 1 {
      assert Render(p).value[|Render(p[..|p| - 1]).value|] == Mark(p[|p| - 1]);
    }
  }

  lemma {:induction false} OnlyOne(p: Path, q: Path)
    requires Legible(p) && Legible(q) && Render(p) == Render(q) && (|p| == 1 || |q| == 1)
    ensures p == q
  {
    hide Render;
    MarkedUnlessOne(p);
    MarkedUnlessOne(q);
    RenderEnds(p);
    RenderEnds(q);
  }

  // ----- Places -----

  /** The value at a place; absent is null. */
  function At(v: Json, path: Path): Json {
    if path == [] then v else Child(At(v, path[..|path| - 1]), path[|path| - 1])
  }

  lemma {:induction false} AtNext(v: Json, path: Path, s: Segment)
    ensures At(v, path + [s]) == Child(At(v, path), s)
  {
    assert (path + [s])[..|path|] == path;
  }

  /** A place that differs, or whose marker is not empty. */
  predicate Differs(before: Json, after: Json, unknown: Json, place: Path) {
    Touched(At(before, place), At(after, place), At(unknown, place))
  }

  predicate Below(place: Path, prefix: Path) { |prefix| <= |place| && place[..|prefix|] == prefix }

  lemma Descends(before: Json, after: Json, unknown: Json, prefix: Path, p: Path) returns (s: Segment)
    requires |prefix| < MAX_DEPTH && p in DiffPaths(before, after, unknown, prefix) && p != prefix
    ensures s in Segments(before, after, unknown)
    ensures Touched(Child(before, s), Child(after, s), Child(unknown, s))
    ensures p in DiffPaths(Child(before, s), Child(after, s), Child(unknown, s), prefix + [s])
  {
    s :| s in Segments(before, after, unknown)
         && Touched(Child(before, s), Child(after, s), Child(unknown, s))
         && p in DiffPaths(Child(before, s), Child(after, s), Child(unknown, s), prefix + [s]);
  }

  lemma {:induction false} CappedOnly(before: Json, after: Json, unknown: Json, prefix: Path, p: Path)
    requires |prefix| == MAX_DEPTH && p in DiffPaths(before, after, unknown, prefix)
    ensures p == prefix
  {
    assert prefix[..MAX_DEPTH] == prefix;
  }

  lemma {:induction false} ReportedDiffers(before: Json, after: Json, unknown: Json, prefix: Path, p: Path)
    requires |prefix| <= MAX_DEPTH
    requires p in DiffPaths(At(before, prefix), At(after, prefix), At(unknown, prefix), prefix)
    requires prefix != [] ==> Differs(before, after, unknown, prefix)
    ensures Below(p, prefix) && |p| <= MAX_DEPTH
    ensures p != prefix || prefix != [] ==> Differs(before, after, unknown, p)
    decreases MAX_DEPTH - |prefix|
  {
    hide Segments, Child, DiffPaths, At;
    if |prefix| == MAX_DEPTH {
      CappedOnly(At(before, prefix), At(after, prefix), At(unknown, prefix), prefix, p);
    } else if p != prefix {
      var s := Descends(At(before, prefix), At(after, prefix), At(unknown, prefix), prefix, p);
      AtNext(before, prefix, s);
      AtNext(after, prefix, s);
      AtNext(unknown, prefix, s);
      ReportedDiffers(before, after, unknown, prefix + [s], p);
      assert p[..|prefix|] == p[..|prefix| + 1][..|prefix|];
    }
  }

  lemma {:induction false} RootIsNotReported(before: Json, after: Json, unknown: Json)
    requires before.Obj? || after.Obj?
    ensures forall p: Path :: p in DiffPaths(before, after, unknown, []) ==> p != [] && p[0].Key?
  {
    forall p: Path | p in DiffPaths(before, after, unknown, []) ensures p != [] && p[0].Key? {
      if p != [] || unknown != Bool(true) {
        RootDescends(before, after, unknown, p);
      }
    }
  }

  lemma {:induction false} RootDescends(before: Json, after: Json, unknown: Json, p: Path)
    requires (before.Obj? || after.Obj?) && p in DiffPaths(before, after, unknown, [])
    ensures p != [] && p[0].Key?
  {
    var s :| s in Segments(before, after, unknown)
             && p in DiffPaths(Child(before, s), Child(after, s), Child(unknown, s), [] + [s]);
    StartsWith(Child(before, s), Child(after, s), Child(unknown, s), [] + [s], p);
    assert p[..1][0] == s;
  }

  lemma {:induction false} StartsWith(before: Json, after: Json, unknown: Json, prefix: Path, p: Path)
    requires |prefix| <= MAX_DEPTH && p in DiffPaths(before, after, unknown, prefix)
    ensures Below(p, prefix)
    decreases MAX_DEPTH - |prefix|
  {
    hide Segments, Touched, Child, DiffPaths;
    if |prefix| == MAX_DEPTH {
      CappedOnly(before, after, unknown, prefix, p);
    } else if p != prefix {
      var s := Descends(before, after, unknown, prefix, p);
      StartsWith(Child(before, s), Child(after, s), Child(unknown, s), prefix + [s], p);
      assert p[..|prefix|] == p[..|prefix| + 1][..|prefix|];
    }
  }

  /** For mapping-rooted values, every path reported is at most three segments deep, can be
      rendered, and is a place that differs or is marked unknown. */
  lemma {:induction false} ReportsAreSound(before: Json, after: Json, unknown: Json, p: Path)
    requires before.Obj? || after.Obj?
    ensures p in DiffPaths(before, after, unknown, []) ==>
      0 < |p| <= MAX_DEPTH && Render(p).Some? && Differs(before, after, unknown, p)
  {
    if p in DiffPaths(before, after, unknown, []) {
      RootIsNotReported(before, after, unknown);
      ReportedDiffers(before, after, unknown, [], p);
      KeyedPathsRender(p);
    }
  }

  // ----- What is missed, and what is not -----

  /** The scalar at a place: null when there is nothing or a container. */
  function Leaf(v: Json, place: Path): Json { Scalar(At(v, place)) }

  function Scalar(v: Json): Json { if Container(v) then Null else v }

  /** A scalar that changes, or is only known after apply. */
  predicate Changes(before: Json, after: Json, unknown: Json, place: Path) {
    Leaf(before, place) != Leaf(after, place) || At(unknown, place) == Bool(true)
  }

  /** On the way from the first `n` segments to the whole place the comparison goes astray, before
      it is cut off or meets a marker: the next segment is not one it descends into (an index where
      one of the three is a mapping), or the place itself is a container in one of them. */
  predicate Astray(before: Json, after: Json, unknown: Json, place: Path, n: nat)
    requires n <= |place|
    decreases |place| - n
  {
    var b, a, u := At(before, place[..n]), At(after, place[..n]), At(unknown, place[..n]);
    if n >= MAX_DEPTH || (n > 0 && u == Bool(true)) then false
    else if n == |place| then Container(b) || Container(a) || Container(u)
    else place[n] !in Segments(b, a, u) || Astray(before, after, unknown, place, n + 1)
  }

  lemma {:induction false} AstrayIs(before: Json, after: Json, unknown: Json, place: Path, n: nat)
    requires n <= |place|
    ensures var b, a, u := At(before, place[..n]), At(after, place[..n]), At(unknown, place[..n]);
            Astray(before, after, unknown, place, n)
            == (n < MAX_DEPTH && !(n > 0 && u == Bool(true))
                && if n == |place| then Container(b) || Container(a) || Container(u)
                   else place[n] !in Segments(b, a, u) || Astray(before, after, unknown, place, n + 1))
  {
    hide At, Segments;
  }

  /** Something below a place is there only if the place is worth descending into. */
  lemma {:induction false} ChangeShowsAbove(before: Json, after: Json, unknown: Json, place: Path, n: nat)
    requires Changes(before, after, unknown, place) && n <= |place|
    ensures Touched(At(before, place[..n]), At(after, place[..n]), At(unknown, place[..n]))
    decreases |place| - n
  {
    if n == |place| {
      assert place[..n] == place;
    } else {
      ChangeShowsAbove(before, after, unknown, place, n + 1);
      StepDown(before, after, unknown, place, n);
    }
  }

  lemma {:induction false} StepDown(before: Json, after: Json, unknown: Json, place: Path, n: nat)
    requires n < |place|
    ensures place[..n + 1] == place[..n] + [place[n]]
    ensures At(before, place[..n + 1]) == Child(At(before, place[..n]), place[n])
    ensures At(after, place[..n + 1]) == Child(At(after, place[..n]), place[n])
    ensures At(unknown, place[..n + 1]) == Child(At(unknown, place[..n]), place[n])
  {
    assert place[..n + 1] == place[..n] + [place[n]];
    AtNext(before, place[..n], place[n]);
    AtNext(after, place[..n], place[n]);
    AtNext(unknown, place[..n], place[n]);
  }

  /** Some path reported by the comparison from the first `n` segments on lies at or above `place`. */
  ghost predicate ReportedFrom(before: Json, after: Json, unknown: Json, place: Path, n: nat)
    requires n <= |place|
  {
    exists p :: p in DiffPaths(At(before, place[..n]), At(after, place[..n]), At(unknown, place[..n]), place[..n])
                && Below(place, p)
  }

  /** A node at which the comparison stops reports itself, or nothing. */
  lemma {:induction false} StopsHere(before: Json, after: Json, unknown: Json, prefix: Path, p: Path)
    requires |prefix| >= MAX_DEPTH || unknown == Bool(true)
             || (!Container(before) && !Container(after) && !Container(unknown))
    requires |prefix| <= MAX_DEPTH
    ensures p in DiffPaths(before, after, unknown, prefix) ==> p == prefix
    ensures prefix in DiffPaths(before, after, unknown, prefix)
            <==> |prefix| >= MAX_DEPTH || (if unknown == Bool(true) then prefix != [] else before != after)
  {
    if |prefix| == MAX_DEPTH { assert prefix[..MAX_DEPTH] == prefix; }
  }

  lemma {:induction false} ReportedBelow(before: Json, after: Json, unknown: Json, prefix: Path, s: Segment, p: Path)
    requires |prefix| < MAX_DEPTH && unknown != Bool(true) && s in Segments(before, after, unknown)
    requires Container(before) || Container(after) || Container(unknown)
    requires Touched(Child(before, s), Child(after, s), Child(unknown, s))
    requires p in DiffPaths(Child(before, s), Child(after, s), Child(unknown, s), prefix + [s])
    ensures p in DiffPaths(before, after, unknown, prefix)
  {
  }

  /** A node at which the comparison goes on never reports itself. */
  lemma GoesOn(before: Json, after: Json, unknown: Json, prefix: Path, p: Path) returns (s: Segment)
    requires |prefix| < MAX_DEPTH && unknown != Bool(true)
    requires Container(before) || Container(after) || Container(unknown)
    requires p in DiffPaths(before, after, unknown, prefix)
    ensures s in Segments(before, after, unknown) && Below(p, prefix + [s])
    ensures p in DiffPaths(Child(before, s), Child(after, s), Child(unknown, s), prefix + [s])
  {
    s :| s in Segments(before, after, unknown)
         && Touched(Child(before, s), Child(after, s), Child(unknown, s))
         && p in DiffPaths(Child(before, s), Child(after, s), Child(unknown, s), prefix + [s]);
    StartsWith(Child(before, s), Child(after, s), Child(unknown, s), prefix + [s], p);
  }

  lemma NoSegments(before: Json, after: Json, unknown: Json, s: Segment)
    requires !Container(before) && !Container(after) && !Container(unknown)
    ensures Child(before, s) == Child(after, s) == Child(unknown, s) == Null
    ensures s !in Segments(before, after, unknown)
  {
  }

  lemma {:induction false} DownFrom(before: Json, after: Json, unknown: Json, place: Path, n: nat)
    requires n < |place| && n < MAX_DEPTH && ReportedFrom(before, after, unknown, place, n)
    requires var b, a, u := At(before, place[..n]), At(after, place[..n]), At(unknown, place[..n]);
             u != Bool(true) && (Container(b) || Container(a) || Container(u))
    ensures place[n] in Segments(At(before, place[..n]), At(after, place[..n]), At(unknown, place[..n]))
    ensures ReportedFrom(before, after, unknown, place, n + 1)
  {
    hide DiffPaths, At, Segments, Child, Container, Below;
    var b, a, u := At(before, place[..n]), At(after, place[..n]), At(unknown, place[..n]);
    var p :| p in DiffPaths(b, a, u, place[..n]) && Below(place, p);
    var s := GoesOn(b, a, u, place[..n], p);
    SameNext(place, p, n, s);
    StepDown(before, after, unknown, place, n);
  }

  lemma {:induction false} UpFrom(before: Json, after: Json, unknown: Json, place: Path, n: nat)
    requires n < |place| && n < MAX_DEPTH && ReportedFrom(before, after, unknown, place, n + 1)
    requires Changes(before, after, unknown, place)
    requires var b, a, u := At(before, place[..n]), At(after, place[..n]), At(unknown, place[..n]);
             u != Bool(true) && (Container(b) || Container(a) || Container(u)) && place[n] in Segments(b, a, u)
    ensures ReportedFrom(before, after, unknown, place, n)
  {
    hide DiffPaths, At, Segments, Child, Container, Below, Changes, Touched;
    var b, a, u := At(before, place[..n]), At(after, place[..n]), At(unknown, place[..n]);
    StepDown(before, after, unknown, place, n);
    ChangeShowsAbove(before, after, unknown, place, n + 1);
    var p :| p in DiffPaths(Child(b, place[n]), Child(a, place[n]), Child(u, place[n]), place[..n + 1])
             && Below(place, p);
    ReportedBelow(b, a, u, place[..n], place[n], p);
  }

  /** On the way to a change there is always something to descend into. */
  lemma {:induction false} SomethingThere(before: Json, after: Json, unknown: Json, place: Path, n: nat)
    requires n < |place| && Changes(before, after, unknown, place)
    ensures Container(At(before, place[..n])) || Container(At(after, place[..n])) || Container(At(unknown, place[..n]))
  {
    hide At, Segments, Changes;
    StepDown(before, after, unknown, place, n);
    ChangeShowsAbove(before, after, unknown, place, n + 1);
    if !Container(At(before, place[..n])) && !Container(At(after, place[..n])) && !Container(At(unknown, place[..n])) {
      NoSegments(At(before, place[..n]), At(after, place[..n]), At(unknown, place[..n]), place[n]);
    }
  }

  /** The comparison at one node on the way, its own end left to the next. */
  lemma {:induction false} OneNode(before: Json, after: Json, unknown: Json, place: Path, n: nat)
    requires n < |place| && n < MAX_DEPTH && Changes(before, after, unknown, place)
    requires At(unknown, place[..n]) != Bool(true)
    ensures ReportedFrom(before, after, unknown, place, n)
            <==> place[n] in Segments(At(before, place[..n]), At(after, place[..n]), At(unknown, place[..n]))
                 && ReportedFrom(before, after, unknown, place, n + 1)
  {
    hide ReportedFrom, At, Segments, Container, Changes;
    SomethingThere(before, after, unknown, place, n);
    if ReportedFrom(before, after, unknown, place, n) { DownFrom(before, after, unknown, place, n); }
    if place[n] in Segments(At(before, place[..n]), At(after, place[..n]), At(unknown, place[..n]))
       && ReportedFrom(before, after, unknown, place, n + 1) {
      UpFrom(before, after, unknown, place, n);
    }
  }

  lemma SameNext(place: Path, p: Path, n: nat, s: Segment)
    requires n < |place| && Below(place, p) && Below(p, place[..n] + [s])
    ensures s == place[n]
  {
    assert p[n] == (place[..n] + [s])[n];
    assert place[..|p|][n] == p[n];
  }

  /** The end of the way. */
  lemma {:induction false} LastNode(before: Json, after: Json, unknown: Json, place: Path, n: nat)
    requires n <= |place| && n <= MAX_DEPTH && Changes(before, after, unknown, place)
    requires n == MAX_DEPTH || n == |place| || At(unknown, place[..n]) == Bool(true)
    requires n > 0 || At(unknown, place[..n]) != Bool(true)
    ensures ReportedFrom(before, after, unknown, place, n) <==> !Astray(before, after, unknown, place, n)
  {
    hide DiffPaths, At, Segments, Container, ReportedFrom, Changes, Below, Astray;
    AstrayIs(before, after, unknown, place, n);
    var b, a, u := At(before, place[..n]), At(after, place[..n]), At(unknown, place[..n]);
    if n < MAX_DEPTH && u != Bool(true) && (Container(b) || Container(a) || Container(u)) {
      assert place[..n] == place;
      NothingAtContainer(before, after, unknown, place);
    } else {
      StopsHere(b, a, u, place[..n], place[..n]);
      assert n == |place| ==> place[..n] == place;
      if n < MAX_DEPTH && u != Bool(true) { ScalarsDiffer(before, after, unknown, place); }
      ReportedHere(before, after, unknown, place, n);
    }
  }

  lemma {:induction false} ScalarsDiffer(before: Json, after: Json, unknown: Json, place: Path)
    requires Changes(before, after, unknown, place)
    requires var b, a, u := At(before, place), At(after, place), At(unknown, place);
             !Container(b) && !Container(a) && u != Bool(true)
    ensures At(before, place) != At(after, place)
  {
    hide At;
  }

  lemma {:induction false} ReportedHere(before: Json, after: Json, unknown: Json, place: Path, n: nat)
    requires n <= |place|
    requires place[..n] in DiffPaths(At(before, place[..n]), At(after, place[..n]), At(unknown, place[..n]), place[..n])
    ensures ReportedFrom(before, after, unknown, place, n)
  {
    hide DiffPaths, At;
    assert Below(place, place[..n]);
  }

  lemma {:induction false} NothingAtContainer(before: Json, after: Json, unknown: Json, place: Path)
    requires |place| < MAX_DEPTH && At(unknown, place) != Bool(true)
    requires Container(At(before, place)) || Container(At(after, place)) || Container(At(unknown, place))
    ensures !ReportedFrom(before, after, unknown, place, |place|)
  {
    hide DiffPaths, At, Container, Segments;
    assert place[..|place|] == place;
    if p :| p in DiffPaths(At(before, place), At(after, place), At(unknown, place), place) && Below(place, p) {
      var s := GoesOn(At(before, place), At(after, place), At(unknown, place), place, p);
    }
  }

  lemma {:induction false} ReportedUnlessAstray(before: Json, after: Json, unknown: Json, place: Path, n: nat)
    requires n <= |place| && n <= MAX_DEPTH && Changes(before, after, unknown, place)
    requires n > 0 || unknown != Bool(true)
    ensures ReportedFrom(before, after, unknown, place, n) <==> !Astray(before, after, unknown, place, n)
    decreases |place| - n
  {
    hide ReportedFrom, At, Changes, Segments;
    RootIs(unknown);
    assert n == 0 ==> place[..n] == [];
    if n == MAX_DEPTH || n == |place| || At(unknown, place[..n]) == Bool(true) {
      LastNode(before, after, unknown, place, n);
    } else {
      OneNode(before, after, unknown, place, n);
      ReportedUnlessAstray(before, after, unknown, place, n + 1);
    }
  }

  lemma {:induction false} RootIs(v: Json)
    ensures At(v, []) == v
  {
  }

  /** A place where a scalar changes, or becomes known only after apply, has a reported path at or
      above it if and only if the comparison does not go astray on the way there. */
  lemma {:induction false} ReportsAreExact(before: Json, after: Json, unknown: Json, place: Path)
    requires unknown != Bool(true) && Changes(before, after, unknown, place)
    ensures (exists p :: p in DiffPaths(before, after, unknown, []) && Below(place, p))
            <==> !Astray(before, after, unknown, place, 0)
  {
    hide DiffPaths, Astray, Changes, At;
    ReportedUnlessAstray(before, after, unknown, place, 0);
    assert place[..0] == [];
    RootIs(before);
    RootIs(after);
    RootIs(unknown);
  }

  /** Where the three trees are of one kind, nothing goes astray. */
  lemma {:induction false} OneKindIsNotAstray(before: Json, after: Json, unknown: Json, place: Path, n: nat)
    requires n <= |place| && Changes(before, after, unknown, place) && (n > 0 || unknown != Bool(true))
    requires KindsMatch(before, after, unknown, place)
    ensures !Astray(before, after, unknown, place, n)
    decreases |place| - n
  {
    hide At, Segments, Child, Container, Clash, Touched, Changes, KindsMatch, Astray;
    AstrayIs(before, after, unknown, place, n);
    KindAt(before, after, unknown, place, n);
    if n < |place| {
      ChangeShowsAbove(before, after, unknown, place, n + 1);
      StepDown(before, after, unknown, place, n);
      NextIsTaken(At(before, place[..n]), At(after, place[..n]), At(unknown, place[..n]), place[n]);
      OneKindIsNotAstray(before, after, unknown, place, n + 1);
    } else {
      EndIsNotAstray(before, after, unknown, place);
    }
  }

  lemma {:induction false} EndIsNotAstray(before: Json, after: Json, unknown: Json, place: Path)
    requires Changes(before, after, unknown, place) && (place != [] || unknown != Bool(true))
    requires KindsMatch(before, after, unknown, place)
    ensures !Astray(before, after, unknown, place, |place|)
  {
    hide At, Container, Clash, Changes, KindsMatch, Astray, Scalar;
    AstrayIs(before, after, unknown, place, |place|);
    KindAt(before, after, unknown, place, |place|);
    assert place[..|place|] == place;
    RootIs(unknown);
    ScalarChanges(before, after, unknown, place);
    EndIsScalar(At(before, place), At(after, place), At(unknown, place));
  }

  lemma {:induction false} KindAt(before: Json, after: Json, unknown: Json, place: Path, n: nat)
    requires n <= |place| && KindsMatch(before, after, unknown, place)
    ensures !Clash(At(before, place[..n]), At(after, place[..n]), At(unknown, place[..n]))
  {
    hide At, Clash;
  }

  lemma {:induction false} ScalarChanges(before: Json, after: Json, unknown: Json, place: Path)
    requires Changes(before, after, unknown, place)
    ensures Scalar(At(before, place)) != Scalar(At(after, place)) || At(unknown, place) == Bool(true)
  {
    hide At;
  }

  lemma EndIsScalar(before: Json, after: Json, unknown: Json)
    requires !Clash(before, after, unknown) && (Scalar(before) != Scalar(after) || unknown == Bool(true))
    ensures unknown == Bool(true) || !(Container(before) || Container(after) || Container(unknown))
  {
  }

  /** Values that are not of one kind: a mapping against a list, or a container against a scalar. A
      null may stand for anything, and so may a marker that is no container. */
  predicate Clash(before: Json, after: Json, unknown: Json) {
    || (before.Obj? && after.Arr?) || (before.Arr? && after.Obj?)
    || (unknown.Obj? && (before.Arr? || after.Arr?)) || (unknown.Arr? && (before.Obj? || after.Obj?))
    || (Container(before) && !Container(after) && !after.Null?)
    || (Container(after) && !Container(before) && !before.Null?)
    || (Container(unknown) && !Container(before) && !before.Null?)
    || (Container(unknown) && !Container(after) && !after.Null?)
  }

  /** Above and at `place`, the three trees are of one kind. */
  ghost predicate KindsMatch(before: Json, after: Json, unknown: Json, place: Path) {
    forall n {:trigger place[..n]} :: 0 <= n <= |place| ==>
      !Clash(At(before, place[..n]), At(after, place[..n]), At(unknown, place[..n]))
  }

  /** The next segment on the way to a change is one the comparison takes. */
  lemma NextIsTaken(before: Json, after: Json, unknown: Json, s: Segment)
    requires !Clash(before, after, unknown)
    requires Touched(Child(before, s), Child(after, s), Child(unknown, s))
    ensures s in Segments(before, after, unknown)
  {
  }

  /** So, when null, absent and empty count as one and the kinds match, every change is reported. */
  lemma {:induction false} ReportsAreComplete(before: Json, after: Json, unknown: Json, place: Path)
    requires unknown != Bool(true) && Changes(before, after, unknown, place)
    requires KindsMatch(before, after, unknown, place)
    ensures exists p :: p in DiffPaths(before, after, unknown, []) && Below(place, p)
  {
    OneKindIsNotAstray(before, after, unknown, place, 0);
    ReportsAreExact(before, after, unknown, place);
  }

  /** A change that goes unreported: a string that becomes an empty mapping. */
  lemma MissedExample()
    ensures var before, after := Obj(map["a" := Str("x")]), Obj(map["a" := Obj(map[])]);
            DiffPaths(before, after, Null, []) == {} && Differs(before, after, Null, [Key("a")])
            && Changes(before, after, Null, [Key("a")])
  {
    var before, after := Obj(map["a" := Str("x")]), Obj(map["a" := Obj(map[])]);
    AtNext(before, [], Key("a"));
    AtNext(after, [], Key("a"));
    AtNext(Null, [], Key("a"));
    assert [] + [Key("a")] == [Key("a")];
    assert Segments(Str("x"), Obj(map[]), Null) == {};
    forall p ensures p !in DiffPaths(before, after, Null, []) {
      if p in DiffPaths(before, after, Null, []) {
        RootDescends(before, after, Null, p);
        var s := Descends(before, after, Null, [], p);
      }
    }
  }
}
