/** The hand-written reader of SentencePiece models, against the printer of the
    same format. Where the code would panic the reader here returns an error. */
module SentencePiece {
  import opened Prelude
  import opened Encode

  const LIMIT_64 := 0x1_0000_0000_0000_0000

  function Pow2(n: nat): (p: nat)
    ensures p > 0
  {
    if n == 0 then 1 else 2 * Pow2(n - 1)
  }

  lemma {:induction false} Pow2Sum(a: nat, b: nat)
    ensures Pow2(a + b) == Pow2(a) * Pow2(b)
    decreases b
  {
    if b > 0 {
      Pow2Sum(a, b - 1);
      assert Pow2(a) * Pow2(b) == Pow2(a) * (2 * Pow2(b - 1)) == 2 * (Pow2(a) * Pow2(b - 1));
    }
  }

  lemma {:induction false} Pow2Monotone(a: nat, b: nat)
    requires a <= b
    ensures Pow2(a) <= Pow2(b)
    decreases b
  {
    if a < b {
      Pow2Monotone(a, b - 1);
    }
  }

  lemma Pow2Of64()
    ensures Pow2(64) == LIMIT_64 && Pow2(7) == 128
  {
    assert Pow2(4) == 16;
    Pow2Sum(4, 3);
    Pow2Sum(4, 4);
    hide Pow2;
    Pow2Sum(8, 8);
    Pow2Sum(16, 16);
    Pow2Sum(32, 32);
  }

  // ----- varints

  /** A value and where the next one starts. */
  datatype Read = Read(value: nat, next: nat)

  /** The low seven bits of a byte on top of `result`, cut to 64 bits. They are
      above those of `result`, so they add. */
  function Merged(result: nat, byte: Byte, shift: nat): (more: nat)
    ensures more < LIMIT_64
  {
    (result + byte % 128 * Pow2(shift)) % LIMIT_64
  }

  lemma MergedIs(result: nat, byte: Byte, shift: nat, low: nat)
    requires byte == low || byte == low + 128
    requires low < 128 && result + low * Pow2(shift) < LIMIT_64
    ensures Merged(result, byte, shift) == result + low * Pow2(shift)
  {
    hide Pow2;
    assert byte % 128 == low;
  }

  /** From byte `pos` on, with `result` read so far: seven bits a byte, the low
      ones first. */
  function VarintFrom(data: seq<Byte>, pos: nat, result: nat, shift: nat): Result<Read, string>
    decreases |data| - pos
  {
    if pos >= |data| then Err("Unexpected end of data while reading varint") else
    var more := Merged(result, data[pos], shift);
    if data[pos] < 128 then Ok(Read(more, pos + 1))
    else if shift + 7 >= 64 then Err("Varint too large")
    else VarintFrom(data, pos + 1, more, shift + 7)
  }

  function ReadVarint(data: seq<Byte>, pos: nat): (r: Result<Read, string>)
    ensures r.Ok? ==> pos < r.value.next <= |data| && r.value.value < LIMIT_64
  {
    VarintAdvances(data, pos, 0, 0);
    VarintFrom(data, pos, 0, 0)
  }

  lemma {:induction false} VarintAdvances(data: seq<Byte>, pos: nat, result: nat, shift: nat)
    ensures VarintFrom(data, pos, result, shift).Ok? ==>
      pos < VarintFrom(data, pos, result, shift).value.next <= |data| &&
        VarintFrom(data, pos, result, shift).value.value < LIMIT_64
    decreases |data| - pos
  {
    if pos < |data| && data[pos] >= 128 && shift + 7 < 64 {
      VarintAdvances(data, pos + 1, Merged(result, data[pos], shift), shift + 7);
    }
  }

  method ReadVarintLoop(data: seq<Byte>, start: nat) returns (r: Result<Read, string>)
    ensures r == ReadVarint(data, start)
  {
    var pos: nat, result: nat, shift: nat := start, 0, 0;
    while true
      invariant VarintFrom(data, pos, result, shift) == VarintFrom(data, start, 0, 0)
      decreases |data| - pos
    {
      if pos >= |data| {
        return Err("Unexpected end of data while reading varint");
      }
      var byte := data[pos];
      pos := pos + 1;
      result := Merged(result, byte, shift);
      if byte < 128 {
        return Ok(Read(result, pos));
      }
      shift := shift + 7;
      if shift >= 64 {
        return Err("Varint too large");
      }
    }
  }

  function EncodeVarint(value: nat): (bytes: seq<Byte>)
    ensures |bytes| > 0
  {
    if value < 128 then [value] else [value % 128 + 128] + EncodeVarint(value / 128)
  }

  /** `data` holds `x` at `pos`. */
  predicate HoldsAt(data: seq<Byte>, pos: nat, x: seq<Byte>) { pos + |x| <= |data| && data[pos..pos + |x|] == x }

  lemma HoldsTail(data: seq<Byte>, pos: nat, a: seq<Byte>, b: seq<Byte>)
    requires HoldsAt(data, pos, a + b)
    ensures HoldsAt(data, pos, a) && HoldsAt(data, pos + |a|, b)
  {
    assert data[pos..pos + |a|] == (a + b)[..|a|];
    assert data[pos + |a|..pos + |a| + |b|] == (a + b)[|a|..];
  }

  lemma {:induction false} VarintFromEncoded(data: seq<Byte>, pos: nat, v: nat, result: nat, shift: nat)
    requires HoldsAt(data, pos, EncodeVarint(v)) && shift < 64
    requires result + v * Pow2(shift) < LIMIT_64
    ensures VarintFrom(data, pos, result, shift) == Ok(Read(result + v * Pow2(shift), pos + |EncodeVarint(v)|))
    decreases v
  {
    hide Pow2, VarintFrom, HoldsAt, Merged;
    FirstByte(data, pos, v);
    if v < 128 {
      LastStep(data, pos, result, shift);
    } else {
      HighBits(v, result, shift);
      MoreStep(data, pos, result, shift);
      VarintFromEncoded(data, pos + 1, v / 128, result + v % 128 * Pow2(shift), shift + 7);
    }
  }

  lemma FirstByte(data: seq<Byte>, pos: nat, v: nat)
    requires HoldsAt(data, pos, EncodeVarint(v))
    ensures pos < |data| && data[pos] == if v < 128 then v else v % 128 + 128
    ensures v >= 128 ==> HoldsAt(data, pos + 1, EncodeVarint(v / 128))
  {
    var bytes := EncodeVarint(v);
    assert data[pos] == data[pos..pos + |bytes|][0];
    if v >= 128 {
      HoldsTail(data, pos, [bytes[0]], EncodeVarint(v / 128));
    }
  }

  lemma LastStep(data: seq<Byte>, pos: nat, result: nat, shift: nat)
    requires pos < |data| && data[pos] < 128 && result + data[pos] * Pow2(shift) < LIMIT_64
    ensures VarintFrom(data, pos, result, shift) == Ok(Read(result + data[pos] * Pow2(shift), pos + 1))
  {
    MergedIs(result, data[pos], shift, data[pos]);
    hide Pow2, Merged;
  }

  lemma MoreStep(data: seq<Byte>, pos: nat, result: nat, shift: nat)
    requires pos < |data| && data[pos] >= 128 && shift + 7 < 64
    requires result + (data[pos] - 128) * Pow2(shift) < LIMIT_64
    ensures VarintFrom(data, pos, result, shift) ==
      VarintFrom(data, pos + 1, result + (data[pos] - 128) * Pow2(shift), shift + 7)
  {
    MergedIs(result, data[pos], shift, data[pos] - 128);
    hide Pow2, Merged;
  }

  /** Writing a value as its low seven bits and the rest: the rest still fits. */
  lemma HighBits(v: nat, result: nat, shift: nat)
    requires v >= 128 && result + v * Pow2(shift) < LIMIT_64
    ensures var low, high := v % 128, v / 128;
      && shift + 7 < 64 && low * Pow2(shift) >= 0
      && result + low * Pow2(shift) < LIMIT_64
      && result + low * Pow2(shift) + high * Pow2(shift + 7) == result + v * Pow2(shift)
  {
    var low, high, p := v % 128, v / 128, Pow2(shift);
    Pow2Sum(shift, 7);
    Pow2Of64();
    hide Pow2;
    assert Pow2(shift + 7) == p * 128;
    Split(low, high, p);
    Grows(high, p);
    if shift + 7 >= 64 {
      Pow2Monotone(64, shift + 7);
    }
  }

  lemma Split(low: nat, high: nat, p: nat)
    ensures (low + 128 * high) * p == low * p + high * (p * 128)
  {
  }

  lemma Grows(high: nat, p: nat)
    requires high >= 1
    ensures p * 128 <= high * (p * 128)
  {
  }

  /** Reading inverts writing, for every 64-bit value and wherever it stands. */
  lemma VarintRoundTrip(data: seq<Byte>, pos: nat, v: nat)
    requires v < LIMIT_64 && HoldsAt(data, pos, EncodeVarint(v))
    ensures ReadVarint(data, pos) == Ok(Read(v, pos + |EncodeVarint(v)|))
  {
    VarintFromEncoded(data, pos, v, 0, 0);
  }

  // ----- the reader

  datatype Piece = Piece(text: seq<Byte>, score: Option<seq<Byte>>)

  /** What has been read of one nested message. */
  datatype Inner = Inner(text: seq<Byte>, score: Option<seq<Byte>>, unk: nat)

  const OVERFLOW := "position out of range"

  /** The fields of a nested message from `pos` to `end`; `n` pieces came before
      it. */
  function ParseInner(data: seq<Byte>, pos: nat, end: nat, x: Inner, n: nat): Result<Inner, string>
    decreases end - pos
  {
    if pos >= end then Ok(x) else
    match ReadVarint(data, pos)
    case Err(e) => Err(e)
    case Ok(Read(tag, p)) =>
      var field, wire := tag / 8, tag % 8;
      if field == 2 && wire == 5 then
        if p + 4 <= |data| then ParseInner(data, p + 4, end, x.(score := Some(data[p..p + 4])), n)
        else ParseInner(data, p, end, x, n)
      else if wire == 0 || wire == 2 then
        match ReadVarint(data, p)
        case Err(e) => Err(e)
        case Ok(Read(value, q)) =>
          if wire == 0 then
            ParseInner(data, q, end, if field == 3 && value == 2 then x.(unk := n) else x, n)
          else if field == 1 then
            if q + value > |data| then Err(OVERFLOW)
            else ParseInner(data, q + value, end, x.(text := data[q..q + value]), n)
          else if q + value >= LIMIT_64 then Err(OVERFLOW)
          else ParseInner(data, q + value, end, x, n)
      else if wire == 5 then ParseInner(data, p + 4, end, x, n)
      else if wire == 1 then ParseInner(data, p + 8, end, x, n)
      else Ok(x)
  }

  datatype Model = Model(vocab: seq<Piece>, unk: nat)

  function Finish(m: Model): Result<Model, string> {
    if m.vocab == [] then Err("No vocabulary found in SentencePiece model") else Ok(m)
  }

  function WithPiece(m: Model, x: Inner): Model {
    Model(if x.text == [] then m.vocab else m.vocab + [Piece(x.text, x.score)], x.unk)
  }

  function ParseOuter(data: seq<Byte>, pos: nat, m: Model): Result<Model, string>
    decreases |data| - pos
  {
    if pos >= |data| then Finish(m) else
    match ReadVarint(data, pos)
    case Err(e) => Err(e)
    case Ok(Read(tag, p)) =>
      var field, wire := tag / 8, tag % 8;
      if wire == 0 || wire == 2 then
        match ReadVarint(data, p)
        case Err(e) => Err(e)
        case Ok(Read(value, q)) =>
          if wire == 0 then ParseOuter(data, q, m)
          else if q + value >= LIMIT_64 then Err(OVERFLOW)
          else if field == 1 then
            match ParseInner(data, q, q + value, Inner([], None, m.unk), |m.vocab|)
            case Err(e) => Err(e)
            case Ok(x) => ParseOuter(data, q + value, WithPiece(m, x))
          else ParseOuter(data, q + value, m)
      else if wire == 5 then ParseOuter(data, p + 4, m)
      else if wire == 1 then ParseOuter(data, p + 8, m)
      else Finish(m)
  }

  method ParseInnerLoop(data: seq<Byte>, start: nat, end: nat, unk: nat, n: nat) returns (r: Result<Inner, string>)
    ensures r == ParseInner(data, start, end, Inner([], None, unk), n)
  {
    var pos, x := start, Inner([], None, unk);
    while pos < end
      invariant ParseInner(data, pos, end, x, n) == ParseInner(data, start, end, Inner([], None, unk), n)
      decreases end - pos
    {
      var tag := ReadVarintLoop(data, pos);
      if tag.Err? {
        return Err(tag.error);
      }
      var field, wire, p := tag.value.value / 8, tag.value.value % 8, tag.value.next;
      if field == 2 && wire == 5 {
        pos := p;
        if p + 4 <= |data| {
          x := x.(score := Some(data[p..p + 4]));
          pos := p + 4;
        }
      } else if wire == 0 || wire == 2 {
        var value := ReadVarintLoop(data, p);
        if value.Err? {
          return Err(value.error);
        }
        var v, q := value.value.value, value.value.next;
        if wire == 0 {
          if field == 3 && v == 2 {
            x := x.(unk := n);
          }
          pos := q;
        } else if field == 1 {
          if q + v > |data| {
            return Err(OVERFLOW);
          }
          x := x.(text := data[q..q + v]);
          pos := q + v;
        } else {
          if q + v >= LIMIT_64 {
            return Err(OVERFLOW);
          }
          pos := q + v;
        }
      } else if wire == 5 {
        pos := p + 4;
      } else if wire == 1 {
        pos := p + 8;
      } else {
        return Ok(x);
      }
    }
    r := Ok(x);
  }

  /** `parse_sentencepiece_vocab`. */
  method ParseVocab(data: seq<Byte>) returns (r: Result<Model, string>)
    ensures r == ParseOuter(data, 0, Model([], 0))
  {
    var pos: nat, m := 0, Model([], 0);
    while pos < |data|
      invariant ParseOuter(data, pos, m) == ParseOuter(data, 0, Model([], 0))
      decreases |data| - pos
    {
      var tag := ReadVarintLoop(data, pos);
      if tag.Err? {
        return Err(tag.error);
      }
      var field, wire, p := tag.value.value / 8, tag.value.value % 8, tag.value.next;
      if wire == 0 || wire == 2 {
        var value := ReadVarintLoop(data, p);
        if value.Err? {
          return Err(value.error);
        }
        var v, q := value.value.value, value.value.next;
        if wire == 2 && q + v >= LIMIT_64 {
          return Err(OVERFLOW);
        }
        if wire == 2 && field == 1 {
          var inner := ParseInnerLoop(data, q, q + v, m.unk, |m.vocab|);
          if inner.Err? {
            return Err(inner.error);
          }
          m := WithPiece(m, inner.value);
        }
        pos := if wire == 0 then q else q + v;
      } else if wire == 5 {
        pos := p + 4;
      } else if wire == 1 {
        pos := p + 8;
      } else {
        break;
      }
    }
    if m.vocab == [] {
      return Err("No vocabulary found in SentencePiece model");
    }
    r := Ok(m);
  }

  // ----- the printer

  /** A piece as a model file has it; `kind` 2 is UNKNOWN. */
  datatype Entry = Entry(text: seq<Byte>, score: seq<Byte>, kind: Option<nat>)

  predicate EntryOk(e: Entry) { |e.score| == 4 && (e.kind.Some? ==> e.kind.value < LIMIT_64) }

  function TextField(text: seq<Byte>): seq<Byte> { [0x0a] + EncodeVarint(|text|) + text }

  function ScoreField(score: seq<Byte>): seq<Byte> { [0x15] + score }

  function KindField(kind: Option<nat>): seq<Byte> {
    match kind
    case None => []
    case Some(k) => [0x18] + EncodeVarint(k)
  }

  function Message(e: Entry): seq<Byte> { TextField(e.text) + (ScoreField(e.score) + KindField(e.kind)) }

  function Printed(e: Entry): seq<Byte> { TextField(Message(e)) }

  function PrintModel(es: seq<Entry>): seq<Byte> {
    if es == [] then [] else Printed(es[0]) + PrintModel(es[1..])
  }

  // ----- reading what was printed

  lemma TagReads(data: seq<Byte>, pos: nat, tag: Byte)
    requires tag < 128 && HoldsAt(data, pos, [tag])
    ensures ReadVarint(data, pos) == Ok(Read(tag, pos + 1))
  {
    assert EncodeVarint(tag) == [tag];
    VarintRoundTrip(data, pos, tag);
  }

  /** A length-delimited field 1: its tag, its length, its bytes. */
  lemma TextFieldReads(data: seq<Byte>, pos: nat, text: seq<Byte>)
    requires HoldsAt(data, pos, TextField(text)) && |data| < LIMIT_64
    ensures ReadVarint(data, pos) == Ok(Read(10, pos + 1))
    ensures ReadVarint(data, pos + 1) == Ok(Read(|text|, pos + 1 + |EncodeVarint(|text|)|))
    ensures HoldsAt(data, pos + 1 + |EncodeVarint(|text|)|, text)
  {
    hide *;
    TextFieldParts(data, pos, text);
    TagReads(data, pos, 0x0a);
    VarintRoundTrip(data, pos + 1, |text|);
  }

  lemma TextFieldParts(data: seq<Byte>, pos: nat, text: seq<Byte>)
    requires HoldsAt(data, pos, TextField(text))
    ensures HoldsAt(data, pos, [0x0a]) && HoldsAt(data, pos + 1, EncodeVarint(|text|))
    ensures HoldsAt(data, pos + 1 + |EncodeVarint(|text|)|, text) && |text| <= |data|
  {
    hide EncodeVarint;
    var len := EncodeVarint(|text|);
    assert TextField(text) == [0x0a] + (len + text);
    HoldsTail(data, pos, [0x0a], len + text);
    HoldsTail(data, pos + 1, len, text);
  }

  lemma TextStep(data: seq<Byte>, pos: nat, end: nat, x: Inner, n: nat, text: seq<Byte>)
    requires HoldsAt(data, pos, TextField(text)) && |data| < LIMIT_64 && pos < end
    ensures ParseInner(data, pos, end, x, n) == ParseInner(data, pos + |TextField(text)|, end, x.(text := text), n)
  {
    TextFieldReads(data, pos, text);
    hide ReadVarint, EncodeVarint;
    var q := pos + 1 + |EncodeVarint(|text|)|;
    assert data[q..q + |text|] == text && q + |text| == pos + |TextField(text)|;
  }

  lemma ScoreStep(data: seq<Byte>, pos: nat, end: nat, x: Inner, n: nat, score: seq<Byte>)
    requires HoldsAt(data, pos, ScoreField(score)) && |score| == 4 && pos < end
    ensures ParseInner(data, pos, end, x, n) == ParseInner(data, pos + 5, end, x.(score := Some(score)), n)
  {
    HoldsTail(data, pos, [0x15], score);
    TagReads(data, pos, 0x15);
    hide ReadVarint;
  }

  lemma KindStep(data: seq<Byte>, pos: nat, x: Inner, n: nat, kind: Option<nat>)
    requires HoldsAt(data, pos, KindField(kind)) && (kind.Some? ==> kind.value < LIMIT_64)
    ensures ParseInner(data, pos, pos + |KindField(kind)|, x, n) == Ok(if kind == Some(2) then x.(unk := n) else x)
  {
    if kind.Some? {
      HoldsTail(data, pos, [0x18], EncodeVarint(kind.value));
      TagReads(data, pos, 0x18);
      VarintRoundTrip(data, pos + 1, kind.value);
      hide ReadVarint, EncodeVarint;
    }
  }

  lemma MessageParts(data: seq<Byte>, pos: nat, e: Entry)
    requires HoldsAt(data, pos, Message(e)) && EntryOk(e)
    ensures var a := |TextField(e.text)|;
      && HoldsAt(data, pos, TextField(e.text)) && HoldsAt(data, pos + a, ScoreField(e.score))
      && HoldsAt(data, pos + a + 5, KindField(e.kind)) && |Message(e)| == a + 5 + |KindField(e.kind)|
      && 0 < a
  {
    var a, b, c := TextField(e.text), ScoreField(e.score), KindField(e.kind);
    HoldsTail(data, pos, a, b + c);
    HoldsTail(data, pos + |a|, b, c);
  }

  /** A printed message reads back as its entry. */
  lemma MessageReads(data: seq<Byte>, pos: nat, e: Entry, x: Inner, n: nat)
    requires HoldsAt(data, pos, Message(e)) && |data| < LIMIT_64 && EntryOk(e)
    ensures ParseInner(data, pos, pos + |Message(e)|, x, n)
         == Ok(Inner(e.text, Some(e.score), if e.kind == Some(2) then n else x.unk))
  {
    hide *;
    MessageParts(data, pos, e);
    var a, x1 := |TextField(e.text)|, x.(text := e.text);
    TextStep(data, pos, pos + |Message(e)|, x, n, e.text);
    FieldsRead(data, pos + a, pos + |Message(e)|, x1, n, e);
  }

  /** The fields after the text. */
  lemma FieldsRead(data: seq<Byte>, pos: nat, end: nat, x: Inner, n: nat, e: Entry)
    requires HoldsAt(data, pos, ScoreField(e.score)) && HoldsAt(data, pos + 5, KindField(e.kind)) && EntryOk(e)
    requires end == pos + 5 + |KindField(e.kind)|
    ensures ParseInner(data, pos, end, x, n) == Ok(Inner(x.text, Some(e.score), if e.kind == Some(2) then n else x.unk))
  {
    assert |e.score| == 4 && (e.kind.Some? ==> e.kind.value < LIMIT_64);
    hide *;
    ScoreStep(data, pos, end, x, n, e.score);
    KindStep(data, pos + 5, x.(score := Some(e.score)), n, e.kind);
  }

  /** One entry added to a model. */
  function WithEntry(m: Model, e: Entry): Model {
    WithPiece(m, Inner(e.text, Some(e.score), if e.kind == Some(2) then |m.vocab| else m.unk))
  }

  function WithEntries(m: Model, es: seq<Entry>): Model
    decreases |es|
  {
    if es == [] then m else WithEntries(WithEntry(m, es[0]), es[1..])
  }

  predicate EntriesOk(es: seq<Entry>) { forall i :: 0 <= i < |es| ==> EntryOk(es[i]) }

  lemma OuterStep(data: seq<Byte>, pos: nat, m: Model, p: nat, len: nat, q: nat, x: Inner)
    requires ReadVarint(data, pos) == Ok(Read(10, p)) && ReadVarint(data, p) == Ok(Read(len, q)) && q + len < LIMIT_64
    requires ParseInner(data, q, q + len, Inner([], None, m.unk), |m.vocab|) == Ok(x)
    ensures ParseOuter(data, pos, m) == ParseOuter(data, q + len, WithPiece(m, x))
  {
    hide ParseInner;
  }

  lemma EntryStep(data: seq<Byte>, pos: nat, m: Model, e: Entry)
    requires HoldsAt(data, pos, Printed(e)) && |data| < LIMIT_64 && EntryOk(e)
    ensures ParseOuter(data, pos, m) == ParseOuter(data, pos + |Printed(e)|, WithEntry(m, e))
  {
    var msg := Message(e);
    TextFieldReads(data, pos, msg);
    var q := pos + 1 + |EncodeVarint(|msg|)|;
    assert pos + |Printed(e)| == q + |msg| && q + |msg| <= |data|;
    hide ReadVarint, EncodeVarint, ParseInner, ParseOuter, Message, TextField, HoldsAt;
    MessageReads(data, q, e, Inner([], None, m.unk), |m.vocab|);
    OuterStep(data, pos, m, pos + 1, |msg|, q,
      Inner(e.text, Some(e.score), if e.kind == Some(2) then |m.vocab| else m.unk));
  }

  lemma {:induction false} EntriesRead(data: seq<Byte>, pos: nat, m: Model, es: seq<Entry>)
    requires HoldsAt(data, pos, PrintModel(es)) && pos + |PrintModel(es)| == |data| < LIMIT_64 && EntriesOk(es)
    ensures ParseOuter(data, pos, m) == Finish(WithEntries(m, es))
    decreases |es|
  {
    if es != [] {
      HoldsTail(data, pos, Printed(es[0]), PrintModel(es[1..]));
      EntryStep(data, pos, m, es[0]);
      hide ParseOuter, Printed, HoldsAt;
      EntriesRead(data, pos + |Printed(es[0])|, WithEntry(m, es[0]), es[1..]);
    }
  }

  // ----- what is read back

  /** The pieces that have a text. */
  function VocabOf(es: seq<Entry>): seq<Piece> {
    if es == [] then [] else
    VocabOf(ButLast(es)) + if Last(es).text == [] then [] else [Piece(Last(es).text, Some(Last(es).score))]
  }

  /** The index the last UNKNOWN piece has or would have, zero without one. */
  function UnkOf(es: seq<Entry>): nat {
    if es == [] then 0 else if Last(es).kind == Some(2) then |VocabOf(ButLast(es))| else UnkOf(ButLast(es))
  }

  lemma {:induction false} WithEntriesSnoc(m: Model, es: seq<Entry>)
    requires es != []
    ensures WithEntries(m, es) == WithEntry(WithEntries(m, ButLast(es)), Last(es))
    decreases |es|
  {
    if |es| > 1 {
      WithEntriesSnoc(WithEntry(m, es[0]), es[1..]);
      assert ButLast(es)[1..] == ButLast(es[1..]) && Last(es) == Last(es[1..]);
    } else {
      assert ButLast(es) == [] && es[1..] == [];
    }
  }

  lemma {:induction false} WithEntriesIs(es: seq<Entry>)
    ensures WithEntries(Model([], 0), es) == Model(VocabOf(es), UnkOf(es))
  {
    if es != [] {
      WithEntriesSnoc(Model([], 0), es);
      WithEntriesIs(ButLast(es));
    }
  }

  /** Parsing inverts printing: the pieces that have a text come back in order with
      their scores, and the unknown id is the last UNKNOWN piece's. A model none of
      whose pieces has a text is refused. */
  lemma ParsePrintRoundTrip(es: seq<Entry>)
    requires EntriesOk(es) && |PrintModel(es)| < LIMIT_64
    ensures ParseOuter(PrintModel(es), 0, Model([], 0)) == Finish(Model(VocabOf(es), UnkOf(es)))
  {
    var data := PrintModel(es);
    assert data[0..0 + |data|] == data;
    EntriesRead(data, 0, Model([], 0), es);
    WithEntriesIs(es);
  }

  /** When every piece has a text the vocabulary is all of them, each at its own
      index, and the unknown id is that of the last UNKNOWN one. */
  lemma {:induction false} AllPiecesKept(es: seq<Entry>)
    requires forall i :: 0 <= i < |es| ==> es[i].text != []
    ensures |VocabOf(es)| == |es| && forall i :: 0 <= i < |es| ==>
      VocabOf(es)[i] == Piece(es[i].text, Some(es[i].score))
    ensures es != [] ==> UnkOf(es) < |es|
    ensures forall i :: UnkOf(es) < i < |es| ==> es[i].kind != Some(2)
    ensures es != [] && es[UnkOf(es)].kind != Some(2) ==> UnkOf(es) == 0
  {
    if es != [] {
      AllPiecesKept(ButLast(es));
    }
  }

  /** Some piece from `k` on has a text. */
  predicate TextFrom(es: seq<Entry>, k: nat) { exists i :: k <= i < |es| && es[i].text != [] }

  /** Where the last UNKNOWN piece is. */
  function LastUnknown(es: seq<Entry>): (k: nat)
    ensures k <= |es|
  {
    if es == [] then 0 else if Last(es).kind == Some(2) then |es| - 1 else LastUnknown(ButLast(es))
  }

  lemma {:induction false} VocabGrows(es: seq<Entry>, k: nat)
    requires k <= |es|
    ensures |VocabOf(es[..k])| <= |VocabOf(es)|
    ensures |VocabOf(es[..k])| < |VocabOf(es)| <==> TextFrom(es, k)
    decreases |es|
  {
    if k == |es| {
      assert es[..k] == es;
    } else {
      VocabGrows(ButLast(es), k);
      assert ButLast(es)[..k] == es[..k];
      assert TextFrom(es, k) <==> TextFrom(ButLast(es), k) || Last(es).text != [] by {
        if Last(es).text != [] { assert es[|es| - 1].text != []; }
        if TextFrom(ButLast(es), k) {
          var i :| k <= i < |es| - 1 && ButLast(es)[i].text != [];
          assert es[i].text != [];
        }
        if TextFrom(es, k) && Last(es).text == [] {
          var i :| k <= i < |es| && es[i].text != [];
          assert ButLast(es)[i].text != [];
        }
      }
    }
  }

  lemma {:induction false} UnkIsBeforeLast(es: seq<Entry>)
    ensures UnkOf(es) == |VocabOf(es[..LastUnknown(es)])|
  {
    if es != [] {
      UnkIsBeforeLast(ButLast(es));
      assert es[..|es| - 1] == ButLast(es);
      assert Last(es).kind != Some(2) ==> es[..LastUnknown(es)] == ButLast(es)[..LastUnknown(es)];
    }
  }

  /** The unknown id is an index of the vocabulary if and only if the last UNKNOWN
      piece, or one after it, has a text. */
  lemma UnkInRangeIff(es: seq<Entry>)
    ensures UnkOf(es) < |VocabOf(es)| <==> TextFrom(es, LastUnknown(es))
  {
    UnkIsBeforeLast(es);
    VocabGrows(es, LastUnknown(es));
  }

  /** A model the reader accepts with an unknown id past its vocabulary: a piece,
      then an UNKNOWN one without a text. */
  lemma UnkOutOfRange()
    ensures var score: seq<Byte> := [0, 0, 0, 0];
      var es := [Entry([0x61], score, None), Entry([], score, Some(2))];
      ParseOuter(PrintModel(es), 0, Model([], 0)) == Ok(Model([Piece([0x61], Some(score))], 1))
  {
    var score: seq<Byte> := [0, 0, 0, 0];
    var a, b := Entry([0x61], score, None), Entry([], score, Some(2));
    TwoRead(a, b);
    ShortPrint(a);
    ShortPrint(b);
    hide *;
    ShortModel(a, b);
    ParsePrintRoundTrip([a, b]);
    FinishOne(Piece([0x61], Some(score)), 1);
  }

  lemma TwoRead(a: Entry, b: Entry)
    requires a.text != [] && b.text == [] && b.kind == Some(2) && EntryOk(a) && EntryOk(b)
    ensures VocabOf([a, b]) == [Piece(a.text, Some(a.score))] && UnkOf([a, b]) == 1 && EntriesOk([a, b])
  {
    assert ButLast([a, b]) == [a] && ButLast([a]) == [] && Last([a, b]) == b;
    assert VocabOf([a]) == [] + [Piece(a.text, Some(a.score))];
    assert VocabOf([a, b]) == VocabOf([a]) + [];
  }

  lemma FinishOne(p: Piece, unk: nat)
    ensures Finish(Model([p], unk)) == Ok(Model([p], unk))
  {
  }

  lemma ShortModel(a: Entry, b: Entry)
    requires |Printed(a)| <= 12 && |Printed(b)| <= 12
    ensures |PrintModel([a, b])| < LIMIT_64
  {
    hide Printed;
    assert [a, b][1..] == [b] && [b][1..] == [];
    assert |PrintModel([b])| == |Printed(b)|;
  }

  lemma ShortPrint(e: Entry)
    requires |e.text| <= 1 && |e.score| == 4 && (e.kind.Some? ==> e.kind.value < 128)
    ensures |Printed(e)| <= 12
  {
    assert |Message(e)| <= 10;
  }

  // ----- where the next field starts

  /** Where the reader goes from a field at `pos`, with positions that wrap at
      64 bits as they do in a build without overflow checks; None at its end or
      an error. */
  function NextField(data: seq<Byte>, pos: nat): Option<nat> {
    match ReadVarint(data, pos)
    case Err(_) => None
    case Ok(Read(tag, p)) =>
      var wire := tag % 8;
      if wire == 5 then Some((p + 4) % LIMIT_64)
      else if wire == 1 then Some((p + 8) % LIMIT_64)
      else if wire != 0 && wire != 2 then None else
      match ReadVarint(data, p)
      case Err(_) => None
      case Ok(Read(value, q)) => Some(if wire == 0 then q else (q + value) % LIMIT_64)
  }

  /** The length that stands before the bytes of a length-delimited field at
      `pos`, with the position behind it. */
  function LengthAt(data: seq<Byte>, pos: nat): Option<Read> {
    match ReadVarint(data, pos)
    case Err(_) => None
    case Ok(Read(tag, p)) =>
      if tag % 8 != 2 then None else match ReadVarint(data, p) case Err(_) => None case Ok(r) => Some(r)
  }

  /** The reader moves on from every field but one whose length takes its end
      around past 2^64 to the field's start or before it. */
  lemma NextFieldAdvancesIff(data: seq<Byte>, pos: nat)
    requires NextField(data, pos).Some? && |data| + 8 < LIMIT_64
    ensures NextField(data, pos).value > pos <==>
      !(LengthAt(data, pos).Some? && var l := LengthAt(data, pos).value; LIMIT_64 <= l.next + l.value <= LIMIT_64 + pos)
  {
    hide VarintFrom;
    if LengthAt(data, pos).Some? {
      var l := LengthAt(data, pos).value;
      WrapsOnce(l.next + l.value);
    }
  }

  lemma WrapsOnce(n: nat)
    requires n < 2 * LIMIT_64
    ensures n % LIMIT_64 == if n < LIMIT_64 then n else n - LIMIT_64
  {
  }

  /** A field that takes the reader back to the start, where it finds the same
      field again. */
  lemma NextFieldStays()
    ensures NextField([0x12] + EncodeVarint(LIMIT_64 - 11), 0) == Some(0)
  {
    var n := LIMIT_64 - 11;
    var data := [0x12] + EncodeVarint(n);
    assert data[0..1] == [0x12] && data[1..1 + |EncodeVarint(n)|] == EncodeVarint(n);
    TagReads(data, 0, 0x12);
    VarintRoundTrip(data, 1, n);
    TenBytes();
    hide ReadVarint, EncodeVarint;
  }

  lemma TenBytes()
    ensures |EncodeVarint(LIMIT_64 - 11)| == 10
  {
    assert |EncodeVarint(0x1)| == 1;
    assert |EncodeVarint(0xff)| == 2;
    assert |EncodeVarint(0x7fff)| == 3;
    assert |EncodeVarint(0x3f_ffff)| == 4;
    assert |EncodeVarint(0x1fff_ffff)| == 5;
    assert |EncodeVarint(0xf_ffff_ffff)| == 6;
    assert |EncodeVarint(0x7ff_ffff_ffff)| == 7;
    assert |EncodeVarint(0x3_ffff_ffff_ffff)| == 8;
    assert |EncodeVarint(0x1ff_ffff_ffff_ffff)| == 9;
  }
}
