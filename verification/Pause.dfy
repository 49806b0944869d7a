/** Pause markers in a text: where they are, where they would be once replaced by
    spaces, and the text segments between the pauses. A text is its bytes, and a
    position an offset in them. */
module Pause {
  import opened Prelude

  const ELLIPSIS_MS := 500
  const COMMA_MS := 200

  // ----- `[pause:500ms]`, `[pause:1.5s]`

  predicate IsDigit(c: char) { '0' <= c <= '9' }

  predicate Starts(s: string, prefix: string) { |prefix| <= |s| && s[..|prefix|] == prefix }

  /** How many digits `s` starts with. */
  function DigitsLen(s: string): (n: nat)
    ensures n <= |s| && (n == |s| || !IsDigit(s[n])) && forall i :: 0 <= i < n ==> IsDigit(s[i])
  {
    if s != [] && IsDigit(s[0]) then 1 + DigitsLen(s[1..]) else 0
  }

  /** The length of the number at the head of `s`, fraction included. */
  function NumberLen(s: string): (r: Option<nat>)
    ensures r.Some? ==> 0 < r.value <= |s| && forall i :: 0 <= i < r.value ==> IsDigit(s[i]) || s[i] == '.'
  {
    var d := DigitsLen(s);
    if d == 0 then None
    else if d < |s| && s[d] == '.' then
      var f := DigitsLen(s[d + 1..]);
      if f == 0 then None else
      assert forall i :: d + 1 <= i < d + 1 + f ==> s[i] == s[d + 1..][i - d - 1];
      Some(d + 1 + f)
    else Some(d)
  }

  function UnitLen(s: string): (r: Option<nat>)
    ensures r.Some? ==> r.value <= |s| && forall i :: 0 <= i < r.value ==> s[i] != ' '
  {
    if Starts(s, "ms]") then
      assert s[0] == s[..3][0] && s[1] == s[..3][1] && s[2] == s[..3][2];
      Some(3)
    else if Starts(s, "s]") then
      assert s[0] == s[..2][0] && s[1] == s[..2][1];
      Some(2)
    else None
  }

  const OPENING := "[pause:"

  /** The length of the marker at the head of `s`, if there is one. */
  function MarkerLen(s: string): (r: Option<nat>)
    ensures r.Some? ==> 9 <= r.value <= |s| && s[0] == '['
  {
    if !Starts(s, OPENING) then None else
    assert s[0] == s[..7][0];
    match NumberLen(s[7..])
    case None => None
    case Some(n) =>
      match UnitLen(s[7 + n..])
      case None => None
      case Some(u) => Some(7 + n + u)
  }

  /** A marker holds no space. */
  lemma MarkerHasNoSpace(s: string)
    requires MarkerLen(s).Some?
    ensures forall i :: 0 <= i < MarkerLen(s).value ==> s[i] != ' '
  {
    var n := NumberLen(s[7..]).value;
    forall i | 0 <= i < MarkerLen(s).value ensures s[i] != ' ' {
      if i < 7 {
        assert s[i] == s[..7][i];
      } else if i < 7 + n {
        assert s[i] == s[7..][i - 7];
      } else {
        assert s[i] == s[7 + n..][i - 7 - n];
      }
    }
  }

  lemma {:induction false} DigitsLocal(m: string, a: string, b: string)
    requires DigitsLen(m + a) < |m|
    ensures DigitsLen(m + b) == DigitsLen(m + a)
    decreases |m|
  {
    assert (m + a)[1..] == m[1..] + a && (m + b)[1..] == m[1..] + b;
    assert (m + a)[0] == m[0] == (m + b)[0];
    if IsDigit(m[0]) {
      DigitsLocal(m[1..], a, b);
    }
  }

  lemma DropConcat(m: string, a: string, k: nat)
    requires k <= |m|
    ensures (m + a)[k..] == m[k..] + a && (m + a)[..k] == m[..k]
  {
  }

  lemma NumberLocal(m: string, a: string, b: string)
    requires NumberLen(m + a).Some? && NumberLen(m + a).value < |m|
    ensures NumberLen(m + b) == NumberLen(m + a)
  {
    hide DigitsLen;
    var d := DigitsLen(m + a);
    DigitsLocal(m, a, b);
    assert (m + a)[d] == m[d] == (m + b)[d];
    if m[d] == '.' {
      DropConcat(m, a, d + 1);
      DropConcat(m, b, d + 1);
      DigitsLocal(m[d + 1..], a, b);
    }
  }

  /** Whether a marker is one does not depend on what follows it. */
  lemma MarkerLocal(m: string, a: string, b: string)
    requires MarkerLen(m + a) == Some(|m|)
    ensures MarkerLen(m + b) == Some(|m|)
  {
    hide NumberLen, UnitLen;
    DropConcat(m, a, 7);
    DropConcat(m, b, 7);
    var n := NumberLen((m + a)[7..]).value;
    UnitNotEmpty((m + a)[7 + n..]);
    DropConcat(m, a, 7 + n);
    DropConcat(m, b, 7 + n);
    NumberLocal(m[7..], a, b);
    UnitLocal(m[7 + n..], a, b);
  }

  lemma UnitNotEmpty(s: string)
    ensures UnitLen(s).Some? ==> UnitLen(s).value >= 2
  {
  }

  lemma UnitLocal(y: string, a: string, b: string)
    requires UnitLen(y + a) == Some(|y|)
    ensures UnitLen(y + b) == Some(|y|)
  {
    assert (y + a)[..|y|] == y == (y + b)[..|y|];
    assert |y| == 2 ==> y[0] == 's';
    assert |y| >= 2 && (y + b)[0] == y[0];
    if Starts(y + b, "ms]") {
      assert (y + b)[..3][0] == 'm';
    }
  }

  // ----- every marker, leftmost first

  datatype Marker = Marker(start: nat, end: nat)

  /** The length of the marker that starts at `i`. */
  function MarkerAt(t: string, i: nat): (r: Option<nat>)
    ensures r.Some? ==> i + 9 <= i + r.value <= |t|
  {
    hide MarkerLen;
    if i <= |t| then MarkerLen(t[i..]) else None
  }

  /** The first position from `pos` on where a marker starts. */
  function NextStart(t: string, pos: nat): (i: nat)
    ensures pos <= i && (i < |t| ==> MarkerAt(t, i).Some?)
    decreases |t| - pos
  {
    if pos >= |t| || MarkerAt(t, pos).Some? then pos else NextStart(t, pos + 1)
  }

  /** The next marker from `pos` on. */
  function NextMarker(t: string, pos: nat): (r: Option<Marker>)
    ensures r.Some? ==> pos <= r.value.start && r.value.start + 9 <= r.value.end <= |t|
    ensures r.Some? ==> MarkerAt(t, r.value.start) == Some(r.value.end - r.value.start)
  {
    var i := NextStart(t, pos);
    hide *;
    if i >= |t| then None else Some(Marker(i, i + MarkerAt(t, i).value))
  }

  /** It is the next: no marker starts before it. */
  lemma NextMarkerIsFirst(t: string, pos: nat, j: nat)
    requires pos <= j < match NextMarker(t, pos) case Some(m) => m.start case None => |t|
    ensures MarkerAt(t, j).None?
  {
    NextStartIsFirst(t, pos, j);
  }

  lemma {:induction false} NextStartIsFirst(t: string, pos: nat, j: nat)
    requires pos <= j < NextStart(t, pos) && j < |t|
    ensures MarkerAt(t, j).None?
    decreases |t| - pos
  {
    hide MarkerAt;
    if pos < j {
      NextStartIsFirst(t, pos + 1, j);
    }
  }

  function Markers(t: string, pos: nat): seq<Marker>
    decreases |t| - pos
  {
    match NextMarker(t, pos)
    case None => []
    case Some(m) => [m] + Markers(t, m.end)
  }

  /** The text from `pos` on with each marker replaced by a space. */
  function Clean(t: string, pos: nat): string
    requires pos <= |t|
    decreases |t| - pos
  {
    match NextMarker(t, pos)
    case None => t[pos..]
    case Some(m) => t[pos..m.start] + " " + Clean(t, m.end)
  }

  /** A marker that starts in a stretch cut off before a space is one in the whole
      text too. */
  lemma MarkerInside(t: string, j: nat, end: nat, after: string)
    requires j <= end <= |t| && MarkerLen(t[j..end] + after).Some? && (after == "" || after[0] == ' ')
    ensures MarkerAt(t, j) == MarkerLen(t[j..end] + after)
  {
    var m := t[j..end];
    var s := m + after;
    var n := MarkerLen(s).value;
    MarkerHasNoSpace(s);
    hide MarkerLen;
    if |m| < |s| {
      assert s[|m|] == ' ';
    }
    assert s == s[..n] + s[n..];
    SliceJoin(t, j, end, after, n);
    MarkerLocal(s[..n], s[n..], t[j + n..]);
  }

  lemma SliceJoin(t: string, j: nat, end: nat, after: string, n: nat)
    requires j + n <= end <= |t|
    ensures t[j..] == (t[j..end] + after)[..n] + t[j + n..]
  {
    assert (t[j..end] + after)[..n] == t[j..j + n];
  }

  /** No marker starts in a stretch between two markers, whatever comes to stand
      after it. */
  lemma NoMarkerInside(t: string, j: nat, end: nat, after: string)
    requires j <= end <= |t| && (j < end ==> MarkerAt(t, j).None?) && (after == "" || after[0] == ' ')
    ensures MarkerLen(t[j..end] + after).None?
  {
    if MarkerLen(t[j..end] + after).Some? {
      MarkerInside(t, j, end, after);
      NotAtSpace(t[j..end] + after);
    }
  }

  lemma NotAtSpace(s: string)
    ensures s == "" || s[0] == ' ' ==> MarkerLen(s).None?
  {
  }

  /** Clean text has no marker left, not even one put together by removing
      others. */
  lemma {:induction false} CleanHasNoMarker(t: string, pos: nat, j: nat)
    requires pos <= |t| && j <= |Clean(t, pos)|
    ensures MarkerLen(Clean(t, pos)[j..]).None?
    decreases |t| - pos
  {
    hide MarkerLen, NextMarker, MarkerAt;
    match NextMarker(t, pos)
    case None =>
      if pos + j < |t| { NextMarkerIsFirst(t, pos, pos + j); }
      NoMarkerInside(t, pos + j, |t|, "");
      assert t[pos..][j..] == t[pos + j..|t|] + "";
    case Some(m) =>
      var gap, rest := t[pos..m.start], Clean(t, m.end);
      if j > |gap| {
        CleanHasNoMarker(t, m.end, j - |gap| - 1);
      }
      hide Clean;
      if j <= |gap| {
        SplitGap(gap, rest, j);
        assert gap[j..] == t[pos + j..m.start];
        if j < |gap| { NextMarkerIsFirst(t, pos, pos + j); }
        NoMarkerInside(t, pos + j, m.start, " " + rest);
      } else {
        SplitRest(gap, rest, j);
      }
  }

  lemma SplitGap(gap: string, rest: string, j: nat)
    requires j <= |gap|
    ensures (gap + " " + rest)[j..] == gap[j..] + (" " + rest)
  {
  }

  lemma SplitRest(gap: string, rest: string, j: nat)
    requires |gap| < j <= |gap| + 1 + |rest|
    ensures (gap + " " + rest)[j..] == rest[j - |gap| - 1..]
  {
  }

  /** `strip_pause_markers`. */
  function Strip(t: string): string { Clean(t, 0) }

  /** Stripping twice is stripping once. */
  lemma StripIsIdempotent(t: string)
    ensures Strip(Strip(t)) == Strip(t) && Markers(Strip(t), 0) == []
  {
    var c := Strip(t);
    match NextMarker(c, 0)
    case None => assert c[0..] == c;
    case Some(m) =>
      hide MarkerLen, NextMarker;
      CleanHasNoMarker(t, 0, m.start);
  }

  // ----- explicit pauses, where the clean text has them

  function DigitsValue(s: string): nat {
    if s == "" then 0 else
    DigitsValue(ButLast(s)) * 10 + if IsDigit(Last(s)) then (Last(s) as int) - ('0' as int) else 0
  }

  function PowerOfTen(n: nat): real { if n == 0 then 1.0 else 10.0 * PowerOfTen(n - 1) }

  function NumberValue(s: string): real {
    var d := DigitsLen(s);
    if d == |s| then DigitsValue(s) as real
    else
      TenPositive(|s| - d - 1);
      DigitsValue(s[..d]) as real + DigitsValue(s[d + 1..]) as real / PowerOfTen(|s| - d - 1)
  }

  lemma TenPositive(n: nat)
    ensures PowerOfTen(n) > 0.0
  {
  }

  /** `as u32`: towards zero, and no more than 32 bits can hold. */
  function AsU32(x: real): nat { if x < 0.0 then 0 else Min(x.Floor, 0xffff_ffff) }

  /** How long the marker at the head of `s` lasts. */
  function DurationMs(s: string): nat {
    if MarkerLen(s).None? then 0 else
    var n := NumberLen(s[7..]).value;
    var value := NumberValue(s[7..7 + n]);
    if Starts(s[7 + n..], "ms]") then AsU32(value) else AsU32(value * 1000.0)
  }

  datatype PauseMark = PauseMark(original: string, ms: nat, position: nat)

  /** Marker `m` moved back by `offset`. */
  function MarkOf(t: string, m: Marker, offset: nat): PauseMark
    requires m.start <= m.end <= |t|
  {
    PauseMark(t[m.start..m.end], DurationMs(t[m.start..]), Monus(m.start, offset))
  }

  /** A pause of no length is none. */
  function PauseOf(t: string, m: Marker, offset: nat): seq<PauseMark>
    requires m.start <= m.end <= |t|
  {
    if MarkOf(t, m, offset).ms > 0 then [MarkOf(t, m, offset)] else []
  }

  /** Each marker from `pos` on that lasts, moved back by what the markers before
      it have shrunk. */
  function Explicit(t: string, pos: nat, offset: nat): seq<PauseMark>
    decreases |t| - pos
  {
    match NextMarker(t, pos)
    case None => []
    case Some(m) => PauseOf(t, m, offset) + Explicit(t, m.end, offset + (m.end - m.start) - 1)
  }

  method ExplicitPauses(t: string) returns (ps: seq<PauseMark>)
    ensures ps == Explicit(t, 0, 0)
  {
    hide NextMarker, PauseOf, Explicit;
    ps := [];
    var pos: nat, offset: nat := 0, 0;
    var next := NextMarker(t, pos);
    while next.Some?
      invariant next == NextMarker(t, pos)
      invariant ps + Explicit(t, pos, offset) == Explicit(t, 0, 0)
      decreases |t| - pos
    {
      var m := next.value;
      ExplicitStep(t, pos, offset, ps);
      ps := ps + PauseOf(t, m, offset);
      offset := offset + (m.end - m.start) - 1;
      pos := m.end;
      next := NextMarker(t, pos);
    }
    ExplicitEnd(t, pos, offset);
  }

  lemma ExplicitStep(t: string, pos: nat, offset: nat, ps: seq<PauseMark>)
    requires NextMarker(t, pos).Some?
    ensures var m := NextMarker(t, pos).value;
      ps + Explicit(t, pos, offset) == (ps + PauseOf(t, m, offset)) + Explicit(t, m.end, offset + (m.end - m.start) - 1)
  {
    hide NextMarker, PauseOf, MarkerAt;
    var m := NextMarker(t, pos).value;
    var rest := Explicit(t, m.end, offset + (m.end - m.start) - 1);
    assert Explicit(t, pos, offset) == PauseOf(t, m, offset) + rest;
    hide Explicit;
  }

  lemma ExplicitEnd(t: string, pos: nat, offset: nat)
    requires NextMarker(t, pos).None?
    ensures Explicit(t, pos, offset) == []
  {
  }

  /** `adj` is where the space that replaced a marker ending at `end` is: what
      follows it is the clean text of what followed the marker. */
  ghost predicate NamesSpace(clean: string, adj: nat, t: string, end: nat) {
    end <= |t| && adj < |clean| && clean[adj] == ' ' && clean[adj + 1..] == Clean(t, end)
  }

  /** Text, a gap and the space after it. */
  function Spaced(before: string, gap: string): (head: string)
    ensures |head| == |before| + |gap| + 1
  {
    before + gap + " "
  }

  /** The running offset is exact: the clean text before a marker is as long as
      the text before it less what has been taken out. */
  lemma AdjustedNamesSpace(t: string, before: string, clean: string, pos: nat, offset: nat)
    requires pos <= |t| && |before| + offset == pos && clean == before + Clean(t, pos) && NextMarker(t, pos).Some?
    ensures var m := NextMarker(t, pos).value;
      && offset <= m.start && NamesSpace(clean, m.start - offset, t, m.end)
      && clean == Spaced(before, t[pos..m.start]) + Clean(t, m.end)
  {
    hide MarkerLen, NextMarker, MarkerAt;
    var m := NextMarker(t, pos).value;
    var gap, rest := t[pos..m.start], Clean(t, m.end);
    CleanStep(t, pos);
    hide Clean;
    SpaceAt(before, gap, rest);
  }

  lemma CleanStep(t: string, pos: nat)
    requires pos <= |t| && NextMarker(t, pos).Some?
    ensures var m := NextMarker(t, pos).value; Clean(t, pos) == t[pos..m.start] + " " + Clean(t, m.end)
  {
    hide NextMarker, MarkerAt;
  }

  lemma SpaceAt(before: string, gap: string, rest: string)
    ensures var clean := before + (gap + " " + rest); var at := |before| + |gap|;
      clean == Spaced(before, gap) + rest && clean[at] == ' ' && clean[at + 1..] == rest
  {
  }

  /** The markers that last. */
  function Lasting(t: string, ms: seq<Marker>): seq<Marker> {
    if ms == [] then [] else
    (if ms[0].start <= |t| && DurationMs(t[ms[0].start..]) > 0 then [ms[0]] else []) + Lasting(t, ms[1..])
  }

  /** `p` is the pause of marker `m`, where its space is in the clean text. */
  ghost predicate PauseFor(t: string, clean: string, p: PauseMark, m: Marker) {
    && m.start <= m.end <= |t| && p.original == t[m.start..m.end] && p.ms == DurationMs(t[m.start..])
    && NamesSpace(clean, p.position, t, m.end)
  }

  ghost predicate PausesFor(t: string, clean: string, ps: seq<PauseMark>, ms: seq<Marker>) {
    |ps| == |ms| && forall i :: 0 <= i < |ps| ==> PauseFor(t, clean, ps[i], ms[i])
  }

  /** Explicit pauses are the markers that last, in order, each at the space of
      the stripped text that stands for it. */
  lemma ExplicitNames(t: string)
    ensures PausesFor(t, Strip(t), Explicit(t, 0, 0), Lasting(t, Markers(t, 0)))
  {
    ExplicitNamesFrom(t, "", Strip(t), 0, 0);
  }

  lemma {:induction false} ExplicitNamesFrom(t: string, before: string, clean: string, pos: nat, offset: nat)
    requires pos <= |t| && |before| + offset == pos && clean == before + Clean(t, pos)
    ensures PausesFor(t, clean, Explicit(t, pos, offset), Lasting(t, Markers(t, pos)))
    decreases |t| - pos
  {
    hide MarkerAt, Clean, NextMarker, PauseOf, Spaced, NamesSpace, DurationMs, PausesFor, Lasting;
    NoPauses(t, clean);
    match NextMarker(t, pos)
    case None =>
    case Some(m) =>
      AdjustedNamesSpace(t, before, clean, pos, offset);
      ExplicitNamesFrom(t, Spaced(before, t[pos..m.start]), clean, m.end, offset + (m.end - m.start) - 1);
      FirstPause(t, clean, offset, m, Explicit(t, m.end, offset + (m.end - m.start) - 1), Markers(t, m.end));
  }

  lemma NoPauses(t: string, clean: string)
    ensures Lasting(t, []) == [] && PausesFor(t, clean, [], [])
  {
  }

  lemma FirstPause(t: string, clean: string, offset: nat, m: Marker, rest: seq<PauseMark>, ms: seq<Marker>)
    requires offset <= m.start <= m.end <= |t| && NamesSpace(clean, m.start - offset, t, m.end)
    requires PausesFor(t, clean, rest, Lasting(t, ms))
    ensures PausesFor(t, clean, PauseOf(t, m, offset) + rest, Lasting(t, [m] + ms))
  {
    hide NamesSpace, DurationMs;
    assert ([m] + ms)[1..] == ms;
    assert PauseFor(t, clean, MarkOf(t, m, offset), m);
  }

  // ----- pauses from punctuation

  function DotsLen(s: string): (n: nat)
    ensures n <= |s| && (n == |s| || s[n] != '.') && forall i :: 0 <= i < n ==> s[i] == '.'
  {
    if s != [] && s[0] == '.' then 1 + DotsLen(s[1..]) else 0
  }

  /** Runs of three dots or more, each as long as it goes. */
  function Ellipses(t: string, pos: nat): seq<PauseMark>
    decreases |t| - pos
  {
    if pos >= |t| then [] else
    var n := DotsLen(t[pos..]);
    if n >= 3 then [PauseMark(t[pos..pos + n], ELLIPSIS_MS, pos)] + Ellipses(t, pos + n)
    else Ellipses(t, pos + 1)
  }

  predicate InNumber(t: string, i: nat)
    requires i < |t|
  {
    i > 0 && IsDigit(t[i - 1]) && i + 1 < |t| && IsDigit(t[i + 1])
  }

  function Commas(t: string, pos: nat): seq<PauseMark>
    decreases |t| - pos
  {
    if pos >= |t| then [] else
    (if t[pos] == ',' && !InNumber(t, pos) then [PauseMark(",", COMMA_MS, pos)] else []) + Commas(t, pos + 1)
  }

  // ----- spans

  /** What a pause takes up in the clean text. */
  function SpanLen(p: PauseMark): nat { if Starts(p.original, OPENING) then 1 else |p.original| }

  function SpanChar(p: PauseMark): char {
    if Starts(p.original, OPENING) then ' ' else if p.original == "," then ',' else '.'
  }

  predicate IsSpan(clean: string, p: PauseMark) {
    && 0 < SpanLen(p) && p.position + SpanLen(p) <= |clean|
    && forall x :: p.position <= x < p.position + SpanLen(p) ==> clean[x] == SpanChar(p)
  }

  predicate Before(p: PauseMark, q: PauseMark) { p.position + SpanLen(p) <= q.position }

  predicate Apart(p: PauseMark, q: PauseMark) { Before(p, q) || Before(q, p) }

  predicate AllSpans(clean: string, ps: seq<PauseMark>) { forall i :: 0 <= i < |ps| ==> IsSpan(clean, ps[i]) }

  predicate AllFrom(ps: seq<PauseMark>, from: nat) { forall i :: 0 <= i < |ps| ==> from <= ps[i].position }

  predicate OfChar(ps: seq<PauseMark>, c: char) { forall i :: 0 <= i < |ps| ==> SpanChar(ps[i]) == c }

  predicate Disjoint(ps: seq<PauseMark>) { forall i, j :: 0 <= i < j < |ps| ==> Apart(ps[i], ps[j]) }

  /** One more span in front of the others. */
  lemma SpanCons(clean: string, p: PauseMark, ps: seq<PauseMark>, lo: nat, from: nat, c: char)
    requires IsSpan(clean, p) && SpanChar(p) == c && lo <= p.position && p.position + SpanLen(p) <= from
    requires AllSpans(clean, ps) && AllFrom(ps, from) && Disjoint(ps) && OfChar(ps, c)
    ensures var all := [p] + ps; AllSpans(clean, all) && AllFrom(all, lo) && Disjoint(all) && OfChar(all, c)
  {
    hide IsSpan, SpanLen, SpanChar;
  }

  lemma {:induction false} ExplicitSpans(t: string, before: string, clean: string, pos: nat, offset: nat)
    requires pos <= |t| && |before| + offset == pos && clean == before + Clean(t, pos)
    ensures var ps := Explicit(t, pos, offset);
      AllSpans(clean, ps) && AllFrom(ps, |before|) && Disjoint(ps) && OfChar(ps, ' ')
    decreases |t| - pos
  {
    hide AllSpans, AllFrom, Disjoint, OfChar, MarkerAt, Clean, NextMarker, PauseOf, Spaced, NamesSpace;
    NoSpans(clean, |before|, ' ');
    match NextMarker(t, pos)
    case None =>
    case Some(m) =>
      AdjustedNamesSpace(t, before, clean, pos, offset);
      var head, offset1 := Spaced(before, t[pos..m.start]), offset + (m.end - m.start) - 1;
      ExplicitSpans(t, head, clean, m.end, offset1);
      ExplicitCons(t, clean, |before|, offset, m, Explicit(t, m.end, offset1));
  }

  lemma NoSpans(clean: string, from: nat, c: char)
    ensures AllSpans(clean, []) && AllFrom([], from) && Disjoint([]) && OfChar([], c)
  {
  }

  /** One marker's span before the spans of the rest. */
  lemma ExplicitCons(t: string, clean: string, lo: nat, offset: nat, m: Marker, rest: seq<PauseMark>)
    requires m.start <= m.end <= |t| && MarkerAt(t, m.start) == Some(m.end - m.start)
    requires lo + offset <= m.start && NamesSpace(clean, m.start - offset, t, m.end)
    requires AllSpans(clean, rest) && AllFrom(rest, m.start - offset + 1) && Disjoint(rest) && OfChar(rest, ' ')
    ensures var ps := PauseOf(t, m, offset) + rest;
      AllSpans(clean, ps) && AllFrom(ps, lo) && Disjoint(ps) && OfChar(ps, ' ')
  {
    hide MarkerAt, Clean, NamesSpace, AllSpans, AllFrom, Disjoint, OfChar, IsSpan, SpanLen, SpanChar, PauseOf, MarkOf;
    MarkSpans(t, clean, offset, m);
    PauseOfIs(t, m, offset);
    if PauseOf(t, m, offset) == [] {
      assert PauseOf(t, m, offset) + rest == rest;
      FromLower(rest, m.start - offset + 1, lo);
    } else {
      SpanCons(clean, MarkOf(t, m, offset), rest, lo, m.start - offset + 1, ' ');
    }
  }

  lemma PauseOfIs(t: string, m: Marker, offset: nat)
    requires m.start <= m.end <= |t|
    ensures PauseOf(t, m, offset) == [] || PauseOf(t, m, offset) == [MarkOf(t, m, offset)]
  {
  }

  lemma FromLower(ps: seq<PauseMark>, from: nat, lo: nat)
    requires AllFrom(ps, from) && lo <= from
    ensures AllFrom(ps, lo)
  {
  }

  /** A marker's pause spans the space that replaced it. */
  lemma MarkSpans(t: string, clean: string, offset: nat, m: Marker)
    requires m.start <= m.end <= |t| && MarkerAt(t, m.start) == Some(m.end - m.start)
    requires offset <= m.start && NamesSpace(clean, m.start - offset, t, m.end)
    ensures var p := MarkOf(t, m, offset);
      IsSpan(clean, p) && SpanChar(p) == ' ' && SpanLen(p) == 1 && p.position == m.start - offset
  {
    MarkerOpens(t, m);
    assert m.start - offset < |clean| && clean[m.start - offset] == ' ';
    hide MarkerAt, Clean, DurationMs, Starts, NamesSpace;
    OneSpace(clean, MarkOf(t, m, offset));
  }

  lemma OneSpace(clean: string, p: PauseMark)
    requires Starts(p.original, OPENING) && p.position < |clean| && clean[p.position] == ' '
    ensures IsSpan(clean, p) && SpanChar(p) == ' ' && SpanLen(p) == 1
  {
    hide Starts;
  }

  lemma MarkerOpens(t: string, m: Marker)
    requires m.start <= m.end <= |t| && MarkerAt(t, m.start) == Some(m.end - m.start)
    ensures Starts(t[m.start..m.end], OPENING)
  {
    assert t[m.start..m.end][..7] == t[m.start..][..7];
  }

  lemma OpensWithBracket(s: string)
    ensures Starts(s, OPENING) ==> s[0] == '['
  {
    if Starts(s, OPENING) {
      assert s[0] == s[..7][0];
    }
  }

  lemma DotsSpan(t: string, pos: nat)
    requires pos < |t| && DotsLen(t[pos..]) >= 3
    ensures var n := DotsLen(t[pos..]);
      var p := PauseMark(t[pos..pos + n], ELLIPSIS_MS, pos);
      IsSpan(t, p) && SpanChar(p) == '.' && SpanLen(p) == n
  {
    hide DotsLen;
    var n := DotsLen(t[pos..]);
    var p := PauseMark(t[pos..pos + n], ELLIPSIS_MS, pos);
    assert p.original[0] == t[pos..][0] == '.';
    OpensWithBracket(p.original);
    assert forall x :: pos <= x < pos + n ==> t[x] == t[pos..][x - pos];
    hide Starts;
  }

  lemma {:induction false} EllipsisSpans(t: string, pos: nat)
    ensures var ps := Ellipses(t, pos); AllSpans(t, ps) && AllFrom(ps, pos) && Disjoint(ps) && OfChar(ps, '.')
    decreases |t| - pos
  {
    hide IsSpan, SpanLen, SpanChar, DotsLen, Starts, Apart, Before;
    if pos < |t| {
      var n := DotsLen(t[pos..]);
      if n >= 3 {
        EllipsisSpans(t, pos + n);
        DotsSpan(t, pos);
        hide Ellipses;
        SpanCons(t, PauseMark(t[pos..pos + n], ELLIPSIS_MS, pos), Ellipses(t, pos + n), pos, pos + n, '.');
        EllipsisFirst(t, pos);
      } else {
        EllipsisSpans(t, pos + 1);
      }
    }
  }

  lemma EllipsisFirst(t: string, pos: nat)
    requires pos < |t| && DotsLen(t[pos..]) >= 3
    ensures var n := DotsLen(t[pos..]);
      Ellipses(t, pos) == [PauseMark(t[pos..pos + n], ELLIPSIS_MS, pos)] + Ellipses(t, pos + n)
  {
    hide DotsLen;
  }

  lemma {:induction false} CommaSpans(t: string, pos: nat)
    ensures var ps := Commas(t, pos); AllSpans(t, ps) && AllFrom(ps, pos) && Disjoint(ps) && OfChar(ps, ',')
    decreases |t| - pos
  {
    if pos < |t| {
      CommaSpans(t, pos + 1);
      var p := PauseMark(",", COMMA_MS, pos);
      assert SpanLen(p) == 1 && SpanChar(p) == ',';
      hide SpanLen, SpanChar;
      if t[pos] == ',' && !InNumber(t, pos) {
        assert IsSpan(t, p);
        SpanCons(t, p, Commas(t, pos + 1), pos, pos + 1, ',');
      }
    }
  }

  /** Spans of different bytes cannot overlap. */
  lemma DisjointByChar(clean: string, ps: seq<PauseMark>, qs: seq<PauseMark>)
    requires AllSpans(clean, ps) && AllSpans(clean, qs) && Disjoint(ps) && Disjoint(qs)
    requires forall i, j :: 0 <= i < |ps| && 0 <= j < |qs| ==> SpanChar(ps[i]) != SpanChar(qs[j])
    ensures Disjoint(ps + qs) && AllSpans(clean, ps + qs)
  {
    forall i, j | 0 <= i < |ps| && 0 <= j < |qs| ensures Apart(ps[i], qs[j]) {
      ApartByChar(clean, ps[i], qs[j]);
    }
  }

  lemma ApartByChar(clean: string, p: PauseMark, q: PauseMark)
    requires IsSpan(clean, p) && IsSpan(clean, q) && SpanChar(p) != SpanChar(q)
    ensures Apart(p, q)
  {
    var x := Max(p.position, q.position);
    assert p.position <= x < p.position + SpanLen(p) ==> clean[x] == SpanChar(p);
    assert q.position <= x < q.position + SpanLen(q) ==> clean[x] == SpanChar(q);
  }

  // ----- sorting by position

  function Inserted(ps: seq<PauseMark>, p: PauseMark): (r: seq<PauseMark>)
    ensures |r| == |ps| + 1
  {
    if ps == [] || Last(ps).position <= p.position then ps + [p]
    else Inserted(ButLast(ps), p) + [Last(ps)]
  }

  /** A stable sort. */
  function SortedByPosition(ps: seq<PauseMark>): (r: seq<PauseMark>)
    ensures |r| == |ps|
  {
    if ps == [] then [] else Inserted(SortedByPosition(ButLast(ps)), Last(ps))
  }

  predicate Ascending(ps: seq<PauseMark>) { forall i, j :: 0 <= i < j < |ps| ==> ps[i].position <= ps[j].position }

  lemma {:induction false} InsertedIs(ps: seq<PauseMark>, p: PauseMark)
    ensures multiset(Inserted(ps, p)) == multiset(ps) + multiset{p}
    ensures forall x <- Inserted(ps, p) :: x == p || x in ps
  {
    if ps != [] && Last(ps).position > p.position {
      InsertedIs(ButLast(ps), p);
      assert ps == ButLast(ps) + [Last(ps)];
    }
  }

  lemma {:induction false} InsertedAscends(ps: seq<PauseMark>, p: PauseMark)
    requires Ascending(ps)
    ensures Ascending(Inserted(ps, p))
  {
    if ps != [] && Last(ps).position > p.position {
      InsertedAscends(ButLast(ps), p);
      InsertedIs(ButLast(ps), p);
      hide Inserted;
      InsertedLast(ps, p);
      AscendingSnoc(Inserted(ButLast(ps), p), Last(ps));
    } else {
      AscendingSnoc(ps, p);
    }
  }

  lemma AscendingSnoc(ps: seq<PauseMark>, p: PauseMark)
    requires Ascending(ps) && forall x <- ps :: x.position <= p.position
    ensures Ascending(ps + [p])
  {
    assert forall i :: 0 <= i < |ps| ==> ps[i] in ps;
  }

  lemma {:induction false} InsertedApart(clean: string, ps: seq<PauseMark>, p: PauseMark)
    requires Disjoint(ps) && AllSpans(clean, ps) && IsSpan(clean, p) && forall i :: 0 <= i < |ps| ==> Apart(ps[i], p)
    ensures Disjoint(Inserted(ps, p)) && AllSpans(clean, Inserted(ps, p))
  {
    hide IsSpan, Apart;
    if ps != [] && Last(ps).position > p.position {
      InsertedApart(clean, ButLast(ps), p);
      InsertedIs(ButLast(ps), p);
      var r := Inserted(ButLast(ps), p);
      hide Inserted;
      forall i | 0 <= i < |r| ensures Apart(r[i], Last(ps)) {
        assert r[i] in r;
        if r[i] != p {
          var k :| 0 <= k < |ps| - 1 && ps[k] == r[i];
        } else {
          ApartBothWays(Last(ps), p);
        }
      }
      SnocApart(clean, r, Last(ps));
      InsertedLast(ps, p);
    } else {
      SnocApart(clean, ps, p);
    }
  }

  lemma InsertedLast(ps: seq<PauseMark>, p: PauseMark)
    requires ps != [] && Last(ps).position > p.position
    ensures Inserted(ps, p) == Inserted(ButLast(ps), p) + [Last(ps)]
  {
  }

  lemma SnocApart(clean: string, ps: seq<PauseMark>, p: PauseMark)
    requires Disjoint(ps) && AllSpans(clean, ps) && IsSpan(clean, p) && forall i :: 0 <= i < |ps| ==> Apart(ps[i], p)
    ensures Disjoint(ps + [p]) && AllSpans(clean, ps + [p])
  {
    hide IsSpan, Apart;
  }

  lemma ApartBothWays(p: PauseMark, q: PauseMark)
    ensures Apart(p, q) <==> Apart(q, p)
  {
  }

  /** Sorting keeps the pauses and keeps them apart. */
  lemma {:induction false} SortedIs(clean: string, ps: seq<PauseMark>)
    requires AllSpans(clean, ps) && Disjoint(ps)
    ensures var r := SortedByPosition(ps);
      multiset(r) == multiset(ps) && Ascending(r) && AllSpans(clean, r) && Disjoint(r)
  {
    if ps != [] {
      hide IsSpan, Apart;
      var rest, p := ButLast(ps), Last(ps);
      assert ps == rest + [p];
      SortedIs(clean, rest);
      var r := SortedByPosition(rest);
      forall i | 0 <= i < |r| ensures Apart(r[i], p) {
        assert r[i] in multiset(r);
        assert r[i] in rest;
        var k :| 0 <= k < |rest| && rest[k] == r[i];
        assert Apart(ps[k], ps[|ps| - 1]);
      }
      InsertedIs(r, p);
      InsertedAscends(r, p);
      InsertedApart(clean, r, p);
    }
  }

  /** Each pause ends before the next one starts. */
  predicate Chain(clean: string, ps: seq<PauseMark>, from: nat) {
    && AllSpans(clean, ps)
    && (ps != [] ==> from <= ps[0].position)
    && (forall i :: 0 <= i < |ps| - 1 ==> Before(ps[i], ps[i + 1]))
  }

  lemma ChainOf(clean: string, ps: seq<PauseMark>)
    requires AllSpans(clean, ps) && Disjoint(ps) && Ascending(ps)
    ensures Chain(clean, ps, 0)
  {
    forall i | 0 <= i < |ps| - 1 ensures Before(ps[i], ps[i + 1]) {
      assert Apart(ps[i], ps[i + 1]) && IsSpan(clean, ps[i + 1]) && IsSpan(clean, ps[i]);
      assert ps[i].position <= ps[i + 1].position;
    }
  }

  // ----- parsing

  method NaturalPauses(t: string) returns (ps: seq<PauseMark>)
    ensures ps == SortedByPosition(Ellipses(t, 0) + Commas(t, 0))
  {
    hide SortedByPosition;
    ps := [];
    var pos: nat := 0;
    while pos < |t|
      invariant ps + Ellipses(t, pos) == Ellipses(t, 0)
      decreases |t| - pos
    {
      var n := DotsLen(t[pos..]);
      if n >= 3 {
        ps := ps + [PauseMark(t[pos..pos + n], ELLIPSIS_MS, pos)];
        pos := pos + n;
      } else {
        pos := pos + 1;
      }
    }
    assert Ellipses(t, pos) == [] && ps + [] == ps;
    var commas := CommaPauses(t);
    ps := SortedByPosition(ps + commas);
  }

  method CommaPauses(t: string) returns (ps: seq<PauseMark>)
    ensures ps == Commas(t, 0)
  {
    ps := [];
    for i := 0 to |t|
      invariant ps + Commas(t, i) == Commas(t, 0)
    {
      if t[i] == ',' {
        var prevIsDigit := i > 0 && IsDigit(t[i - 1]);
        var nextIsDigit := i + 1 < |t| && IsDigit(t[i + 1]);
        if !prevIsDigit || !nextIsDigit {
          ps := ps + [PauseMark(",", COMMA_MS, i)];
        }
      }
    }
  }

  /** All pauses of a text: those of its punctuation in the clean text, and its
      markers where the clean text has their spaces. */
  function PausesOf(t: string): seq<PauseMark> {
    SortedByPosition(SortedByPosition(Ellipses(Strip(t), 0) + Commas(Strip(t), 0)) + Explicit(t, 0, 0))
  }

  method ParseTextWithPauses(t: string) returns (clean: string, pauses: seq<PauseMark>)
    ensures clean == Strip(t) && pauses == PausesOf(t)
  {
    hide SortedByPosition, Strip;
    clean := Strip(t);
    pauses := NaturalPauses(clean);
    var explicit := ExplicitPauses(t);
    pauses := SortedByPosition(pauses + explicit);
  }

  lemma NaturalChars(dots: seq<PauseMark>, commas: seq<PauseMark>)
    requires OfChar(dots, '.') && OfChar(commas, ',') &&
      multiset(SortedByPosition(dots + commas)) == multiset(dots + commas)
    ensures var natural := SortedByPosition(dots + commas);
      forall i :: 0 <= i < |natural| ==> SpanChar(natural[i]) == '.' || SpanChar(natural[i]) == ','
  {
    hide SortedByPosition, SpanChar;
    var natural := SortedByPosition(dots + commas);
    forall i | 0 <= i < |natural| ensures SpanChar(natural[i]) == '.' || SpanChar(natural[i]) == ',' {
      assert natural[i] in multiset(natural);
      assert natural[i] in dots + commas;
    }
  }

  /** The pauses lie apart in the clean text, in order, each over its own bytes:
      a space for a marker, the dots of an ellipsis, a comma. */
  lemma PausesChain(t: string)
    ensures Chain(Strip(t), PausesOf(t), 0)
  {
    var clean := Strip(t);
    var dots, commas, explicit := Ellipses(clean, 0), Commas(clean, 0), Explicit(t, 0, 0);
    EllipsisSpans(clean, 0);
    CommaSpans(clean, 0);
    assert clean == "" + Clean(t, 0);
    ExplicitSpans(t, "", clean, 0, 0);
    hide Strip, Clean, Ellipses, Commas, Explicit, IsSpan, SpanChar, Apart, Inserted, SortedByPosition;
    DisjointByChar(clean, dots, commas);
    SortedIs(clean, dots + commas);
    var natural := SortedByPosition(dots + commas);
    NaturalChars(dots, commas);
    DisjointByChar(clean, natural, explicit);
    SortedIs(clean, natural + explicit);
    ChainOf(clean, SortedByPosition(natural + explicit));
  }

  // ----- text segments between the pauses

  datatype Segment = Text(text: string) | Silence(ms: nat)

  /** A text that is only whitespace is not read. */
  function TextIf(text: string, blank: string -> bool): seq<Segment> {
    if text == "" || blank(text) then [] else [Text(text)]
  }

  /** The segments of the clean text from `last` on. */
  function Segments(clean: string, ps: seq<PauseMark>, last: nat, blank: string -> bool): seq<Segment>
    requires last <= |clean| && Chain(clean, ps, last)
    decreases |ps|
  {
    if ps == [] then TextIf(clean[last..], blank) else
    assert IsSpan(clean, ps[0]);
    TextIf(clean[last..ps[0].position], blank) + [Silence(ps[0].ms)]
      + Segments(clean, ps[1..], ps[0].position + SpanLen(ps[0]), blank)
  }

  /** A stretch of clean text, read or dropped, or one spanned by a pause. */
  datatype Part = Gap(text: string) | Span(text: string, ms: nat)

  function Parts(clean: string, ps: seq<PauseMark>, last: nat): seq<Part>
    requires last <= |clean| && Chain(clean, ps, last)
    decreases |ps|
  {
    if ps == [] then [Gap(clean[last..])] else
    assert IsSpan(clean, ps[0]);
    var p, end := ps[0], ps[0].position + SpanLen(ps[0]);
    [Gap(clean[last..p.position]), Span(clean[p.position..end], p.ms)] + Parts(clean, ps[1..], end)
  }

  function Joined(parts: seq<Part>): string {
    if parts == [] then "" else parts[0].text + Joined(parts[1..])
  }

  function KeptOf(parts: seq<Part>, blank: string -> bool): seq<Segment> {
    if parts == [] then [] else
    (match parts[0] case Gap(text) => TextIf(text, blank) case Span(_, ms) => [Silence(ms)]) + KeptOf(parts[1..], blank)
  }

  lemma KeptPair(a: Part, b: Part, rest: seq<Part>, blank: string -> bool)
    requires a.Gap? && b.Span?
    ensures KeptOf([a, b] + rest, blank) == TextIf(a.text, blank) + [Silence(b.ms)] + KeptOf(rest, blank)
    ensures Joined([a, b] + rest) == a.text + b.text + Joined(rest)
  {
    var all := [a, b] + rest;
    assert all[1..] == [b] + rest && ([b] + rest)[1..] == rest;
  }

  /** Segments and spans partition the clean text: nothing is read twice or out of
      order, and only blank stretches are left out. */
  lemma {:induction false} SegmentsPartition(clean: string, ps: seq<PauseMark>, last: nat, blank: string -> bool)
    requires last <= |clean| && Chain(clean, ps, last)
    ensures Joined(Parts(clean, ps, last)) == clean[last..]
    ensures Segments(clean, ps, last, blank) == KeptOf(Parts(clean, ps, last), blank)
    decreases |ps|
  {
    if ps == [] {
      KeptOne(Gap(clean[last..]), blank);
    } else {
      var p, end := ps[0], ps[0].position + SpanLen(ps[0]);
      ChainTail(clean, ps, last);
      PartsStep(clean, ps, last);
      SegmentsStep(clean, ps, last, blank, []);
      SegmentsPartition(clean, ps[1..], end, blank);
      hide Parts, Segments, Chain, SpanLen, KeptOf, Joined;
      KeptPair(Gap(clean[last..p.position]), Span(clean[p.position..end], p.ms), Parts(clean, ps[1..], end), blank);
      ThreeParts(clean, last, p.position, end);
    }
  }

  lemma ThreeParts(s: string, a: nat, b: nat, c: nat)
    requires a <= b <= c <= |s|
    ensures s[a..b] + s[b..c] + s[c..] == s[a..]
  {
  }

  lemma KeptOne(part: Part, blank: string -> bool)
    requires part.Gap?
    ensures KeptOf([part], blank) == TextIf(part.text, blank) && Joined([part]) == part.text
  {
    assert [part][1..] == [];
  }

  lemma PartsStep(clean: string, ps: seq<PauseMark>, last: nat)
    requires last <= |clean| && ps != [] && Chain(clean, ps, last)
    ensures var p, end := ps[0], ps[0].position + SpanLen(ps[0]);
      && last <= p.position <= end <= |clean| && Chain(clean, ps[1..], end)
      && Parts(clean, ps, last) ==
           [Gap(clean[last..p.position]), Span(clean[p.position..end], p.ms)] + Parts(clean, ps[1..], end)
  {
    assert IsSpan(clean, ps[0]);
    ChainTail(clean, ps, last);
    hide IsSpan, Chain;
  }

  lemma SegmentsStep(clean: string, ps: seq<PauseMark>, last: nat, blank: string -> bool, before: seq<Segment>)
    requires last <= |clean| && ps != [] && Chain(clean, ps, last)
    ensures var p, end := ps[0], ps[0].position + SpanLen(ps[0]);
      && last <= p.position <= end <= |clean| && Chain(clean, ps[1..], end)
      && before + Segments(clean, ps, last, blank)
         == (before + (TextIf(clean[last..p.position], blank) + [Silence(p.ms)])) + Segments(clean, ps[1..], end, blank)
  {
    assert IsSpan(clean, ps[0]);
    ChainTail(clean, ps, last);
    hide IsSpan, Chain;
  }

  /** Interleaves text and pauses. */
  method SegmentText(t: string, blank: string -> bool) returns (segments: seq<Segment>)
    ensures Chain(Strip(t), PausesOf(t), 0) && segments == Segments(Strip(t), PausesOf(t), 0, blank)
  {
    hide Strip, PausesOf, Chain, Segments, Starts;
    var clean, pauses := ParseTextWithPauses(t);
    PausesChain(t);
    segments := [];
    var last: nat := 0;
    assert pauses[0..] == pauses;
    for i := 0 to |pauses|
      invariant last <= |clean| && Chain(clean, pauses[i..], last)
      invariant segments + Segments(clean, pauses[i..], last, blank) == Segments(clean, pauses, 0, blank)
    {
      var p := pauses[i];
      assert pauses[i..][0] == p && pauses[i..][1..] == pauses[i + 1..];
      SegmentsStep(clean, pauses[i..], last, blank, segments);
      ghost var before, was := segments, last;
      if p.position > last {
        segments := segments + TextIf(clean[last..p.position], blank);
      }
      segments := segments + [Silence(p.ms)];
      assert segments == before + (TextIf(clean[was..p.position], blank) + [Silence(p.ms)]);
      last := if Starts(p.original, OPENING) then p.position + 1 else p.position + |p.original|;
    }
    assert pauses[|pauses|..] == [];
    SegmentsEnd(clean, last, blank);
    if last < |clean| {
      segments := segments + TextIf(clean[last..], blank);
    }
  }

  lemma SegmentsEnd(clean: string, last: nat, blank: string -> bool)
    requires last <= |clean|
    ensures Chain(clean, [], last) && Segments(clean, [], last, blank) == TextIf(clean[last..], blank)
  {
  }

  lemma ChainTail(clean: string, ps: seq<PauseMark>, from: nat)
    requires ps != [] && Chain(clean, ps, from)
    ensures Chain(clean, ps[1..], ps[0].position + SpanLen(ps[0]))
  {
    hide IsSpan;
    assert |ps| > 1 ==> Before(ps[0], ps[0 + 1]);
  }
}
