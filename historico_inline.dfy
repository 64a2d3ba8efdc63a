/** The inline formatting of the Word report: a line of text is cut into bold, italic,
    code and plain segments, in three passes, and every non-empty segment becomes a
    run of the paragraph. */
module HistoricoInline {
  import opened Text
  import Records

  datatype Kind = Normal | Bold | Italic | Code

  datatype Segment = Segment(kind: Kind, text: string)

  /** A plain segment, omitted when empty. */
  function PlainIfAny(t: string): (r: seq<Segment>)
    ensures |r| <= 1 && (t != "" <==> r == [Segment(Normal, t)])
  {
    if t != "" then [Segment(Normal, t)] else []
  }

  /** What one turn of a pass emits: the text before the marker, if any, then the
      marked text. */
  function Emit(antes: string, kind: Kind, inner: string): seq<Segment> {
    PlainIfAny(antes) + [Segment(kind, inner)]
  }

  /** The text a segment was cut from: its text between its markers. */
  function Marked(s: Segment): string {
    match s.kind
    case Normal => s.text
    case Bold => "**" + s.text + "**"
    case Italic => "*" + s.text + "*"
    case Code => "`" + s.text + "`"
  }

  /** The text a sequence of segments was cut from. */
  function Source(segs: seq<Segment>): string {
    if segs == [] then "" else Source(segs[..|segs| - 1]) + Marked(segs[|segs| - 1])
  }

  /** One more segment adds its marked text. */
  lemma SourceSnoc(segs: seq<Segment>, s: Segment)
    ensures Source(segs + [s]) == Source(segs) + Marked(s)
  {
    assert (segs + [s])[..|segs|] == segs;
  }

  lemma {:induction false} SourceAppend(a: seq<Segment>, b: seq<Segment>)
    ensures Source(a + b) == Source(a) + Source(b)
    decreases |b|
  {
    if b == [] {
      assert a + b == a;
    } else {
      var init, last := b[..|b| - 1], b[|b| - 1];
      assert b == init + [last];
      assert a + b == (a + init) + [last];
      SourceAppend(a, init);
      SourceSnoc(a + init, last);
      SourceSnoc(init, last);
      Assoc(Source(a), Source(init), Marked(last));
    }
  }

  lemma SourceOne(s: Segment)
    ensures Source([s]) == Marked(s)
  {
    assert [s][..0] == [];
  }

  lemma SourcePlain(t: string)
    ensures Source(PlainIfAny(t)) == t
  {
    if t != "" { SourceOne(Segment(Normal, t)); }
  }

  lemma SourceEmit(antes: string, kind: Kind, inner: string)
    ensures Source(Emit(antes, kind, inner)) == antes + Marked(Segment(kind, inner))
  {
    SourceAppend(PlainIfAny(antes), [Segment(kind, inner)]);
    SourcePlain(antes);
    SourceOne(Segment(kind, inner));
  }

  /** The text of one turn followed by more segments. */
  lemma TurnSource(antes: string, kind: Kind, inner: string, rest: seq<Segment>)
    ensures Source(Emit(antes, kind, inner) + rest) == antes + Marked(Segment(kind, inner)) + Source(rest)
  {
    SourceAppend(Emit(antes, kind, inner), rest);
    SourceEmit(antes, kind, inner);
  }

  /** A text is what stands before an occurrence, the occurrence, and what follows. */
  lemma Rejoin(s: string, p: string, k: int)
    requires OccursAt(s, p, k)
    ensures s == s[..k] + p + s[k + |p|..]
  {
    assert s[k..k + |p|] == p;
  }

  /** Appending in two steps is appending once. */
  lemma Assoc<T>(a: seq<T>, b: seq<T>, c: seq<T>)
    ensures a + b + c == a + (b + c)
  {
  }

  /** The text of one turn, with its markers back. */
  lemma RejoinTurn(t: string, p: string, k: int, k2: int)
    requires OccursAt(t, p, k) && OccursAt(t[k + |p|..], p, k2)
    ensures t == t[..k] + (p + t[k + |p|..][..k2] + p) + t[k + |p|..][k2 + |p|..]
  {
    var resto := t[k + |p|..];
    Rejoin(t, p, k);
    Rejoin(resto, p, k2);
    var a, m, d := t[..k], resto[..k2], resto[k2 + |p|..];
    calc {
      t;
      a + p + (m + p + d);
      { Assoc(a + p, m + p, d); }
      a + p + (m + p) + d;
      { Assoc(a, p, m + p); }
      a + (p + (m + p)) + d;
      { Assoc(p, m, p); }
      a + (p + m + p) + d;
    }
  }

  /** The same, for a one-character marker. */
  lemma RejoinChar(t: string, c: char, k: int, k2: int)
    requires 0 <= k < |t| && t[k] == c && 0 <= k2 < |t[k + 1..]| && t[k + 1..][k2] == c
    ensures t == t[..k] + ([c] + t[k + 1..][..k2] + [c]) + t[k + 1..][k2 + 1..]
  {
    assert t[k..k + 1] == [c];
    assert t[k + 1..][k2..k2 + 1] == [c];
    RejoinTurn(t, [c], k, k2);
  }

  // ---------------------------------------------------------------------------
  // Cutting at pairs of a marker: the bold pass ("**") and the inline code pass ("`")
  // run the same loop, each with its own marker.

  /** The two markers the cut is used with. */
  predicate Marker(p: string) {
    p == "**" || p == "`"
  }

  /** The cut as written: an opening marker `p` without a closing one emits the rest
      of the text inside the loop and again after it. */
  function CutAsWritten(t: string, p: string, kind: Kind): seq<Segment>
    requires p != []
    decreases |t|
  {
    var k := Find(t, p);
    if k < 0 then PlainIfAny(t)
    else
      var resto := t[k + |p|..];
      var k2 := Find(resto, p);
      if k2 < 0 then [Segment(Normal, t), Segment(Normal, t)]
      else Emit(t[..k], kind, resto[..k2]) + CutAsWritten(resto[k2 + |p|..], p, kind)
  }

  /** The cut as intended: the unmatched rest is emitted once. */
  function Cut(t: string, p: string, kind: Kind): seq<Segment>
    requires p != []
    decreases |t|
  {
    var k := Find(t, p);
    if k < 0 then PlainIfAny(t)
    else
      var resto := t[k + |p|..];
      var k2 := Find(resto, p);
      if k2 < 0 then [Segment(Normal, t)]
      else Emit(t[..k], kind, resto[..k2]) + Cut(resto[k2 + |p|..], p, kind)
  }

  /** A closed turn of the cut as written. */
  lemma CutAsWrittenClosed(t: string, p: string, kind: Kind, k: int, k2: int)
    requires p != []
    requires k == Find(t, p) && k >= 0
    requires k2 == Find(t[k + |p|..], p) && k2 >= 0
    ensures CutAsWritten(t, p, kind) == Emit(t[..k], kind, t[k + |p|..][..k2]) + CutAsWritten(t[k + |p|..][k2 + |p|..], p, kind)
  {
  }

  /** No marker left: the cut as written keeps the text as it is. */
  lemma CutAsWrittenDone(t: string, p: string, kind: Kind)
    requires p != []
    ensures Find(t, p) < 0 ==> CutAsWritten(t, p, kind) == PlainIfAny(t)
  {
  }

  /** A marker that is never closed: the cut as written emits the text twice. */
  lemma CutAsWrittenOpen(t: string, p: string, kind: Kind, k: int)
    requires p != []
    requires k == Find(t, p) && k >= 0 && Find(t[k + |p|..], p) < 0
    ensures CutAsWritten(t, p, kind) == [Segment(Normal, t), Segment(Normal, t)]
    ensures t != ""
  {
  }

  /** A marker that is never closed: the intended cut emits the text once. */
  lemma CutOpen(t: string, p: string, kind: Kind, k: int)
    requires p != []
    requires k == Find(t, p) && k >= 0 && Find(t[k + |p|..], p) < 0
    ensures Cut(t, p, kind) == [Segment(Normal, t)]
  {
  }

  /** One turn of the loop: the text up to the closing marker, or the whole rest
      when there is none. */
  method CutTurn(segs: seq<Segment>, rest: string, p: string, kind: Kind, ghost texto: string)
    returns (next: seq<Segment>, despues: string, closed: bool)
    requires p != [] && Find(rest, p) >= 0
    requires segs + CutAsWritten(rest, p, kind) == CutAsWritten(texto, p, kind)
    ensures closed ==> next + CutAsWritten(despues, p, kind) == CutAsWritten(texto, p, kind) && |despues| < |rest|
    ensures !closed ==> next + [Segment(Normal, rest)] == CutAsWritten(texto, p, kind) && rest != ""
  {
    var k := Find(rest, p);
    var antes, resto := rest[..k], rest[k + |p|..];
    var k2 := Find(resto, p);
    if k2 >= 0 {
      var inner := resto[..k2];
      despues := resto[k2 + |p|..];
      var emitted := Emit(antes, kind, inner);
      CutAsWrittenClosed(rest, p, kind, k, k2);
      Assoc(segs, emitted, CutAsWritten(despues, p, kind));
      next := segs + emitted;
      closed := true;
    } else {
      CutAsWrittenOpen(rest, p, kind, k);
      Assoc(segs, [Segment(Normal, rest)], [Segment(Normal, rest)]);
      next := segs + [Segment(Normal, rest)];
      despues, closed := rest, false;
    }
  }

  /** The first pass: the loop of the report over "**". */
  method BoldLoop(texto: string) returns (segs: seq<Segment>)
    ensures segs == CutAsWritten(texto, "**", Bold)
  {
    segs := [];
    var rest := texto;
    assert segs + CutAsWritten(rest, "**", Bold) == CutAsWritten(texto, "**", Bold);
    while Find(rest, "**") >= 0
      invariant segs + CutAsWritten(rest, "**", Bold) == CutAsWritten(texto, "**", Bold)
      decreases |rest|
    {
      var despues, closed;
      segs, despues, closed := CutTurn(segs, rest, "**", Bold, texto);
      if !closed {
        break;
      }
      rest := despues;
    }
    CutAsWrittenDone(rest, "**", Bold);
    if rest != "" {
      segs := segs + [Segment(Normal, rest)];
    }
  }

  /** The inner loop of the third pass, over backticks. */
  method CodeLoop(texto: string) returns (segs: seq<Segment>)
    ensures segs == CutAsWritten(texto, "`", Code)
  {
    segs := [];
    var temp := texto;
    assert segs + CutAsWritten(temp, "`", Code) == CutAsWritten(texto, "`", Code);
    while Find(temp, "`") >= 0
      invariant segs + CutAsWritten(temp, "`", Code) == CutAsWritten(texto, "`", Code)
      decreases |temp|
    {
      var despues, closed;
      segs, despues, closed := CutTurn(segs, temp, "`", Code, texto);
      if !closed {
        break;
      }
      temp := despues;
    }
    CutAsWrittenDone(temp, "`", Code);
    if temp != "" {
      segs := segs + [Segment(Normal, temp)];
    }
  }

  /** An opening marker with no closing one: the rest of the text comes out twice. */
  lemma UnmatchedTwice(t: string, p: string, kind: Kind)
    requires p != [] && Find(t, p) >= 0 && Find(t[Find(t, p) + |p|..], p) < 0
    ensures CutAsWritten(t, p, kind) == [Segment(Normal, t), Segment(Normal, t)]
    ensures Source(CutAsWritten(t, p, kind)) == t + t
  {
    var k := Find(t, p);
    var resto := t[k + |p|..];
    assert Find(resto, p) < 0;
    assert CutAsWritten(t, p, kind) == [Segment(Normal, t)] + [Segment(Normal, t)];
    SourceAppend([Segment(Normal, t)], [Segment(Normal, t)]);
    SourceOne(Segment(Normal, t));
  }

  /** The marker of each kind the cut is used with. */
  predicate MarkerOf(p: string, kind: Kind) {
    (p == "**" && kind == Bold) || (p == "`" && kind == Code)
  }

  /** A closed turn of the intended cut: the text before the first marker, the marked
      text, then the cut of the rest. */
  lemma CutUnfold(t: string, p: string, kind: Kind, k: int, k2: int)
    requires p != []
    requires k == Find(t, p) && k >= 0
    requires k2 == Find(t[k + |p|..], p) && k2 >= 0
    ensures Cut(t, p, kind) == Emit(t[..k], kind, t[k + |p|..][..k2]) + Cut(t[k + |p|..][k2 + |p|..], p, kind)
  {
  }

  /** The text of a closed turn, with its markers back. */
  lemma CutRejoin(t: string, p: string, k: int, k2: int)
    requires p != []
    requires k == Find(t, p) && k >= 0
    requires k2 == Find(t[k + |p|..], p) && k2 >= 0
    ensures t == t[..k] + (p + t[k + |p|..][..k2] + p) + t[k + |p|..][k2 + |p|..]
  {
    FindOccurs(t, p);
    FindOccurs(t[k + |p|..], p);
    RejoinTurn(t, p, k, k2);
  }

  /** The text of one turn of a cut with marker `p`, followed by more segments. */
  lemma MarkedTurnSource(antes: string, p: string, kind: Kind, inner: string, rest: seq<Segment>)
    requires MarkerOf(p, kind)
    ensures Source(Emit(antes, kind, inner) + rest) == antes + (p + inner + p) + Source(rest)
  {
    TurnSource(antes, kind, inner, rest);
    assert Marked(Segment(kind, inner)) == p + inner + p;
  }

  /** The intended cut loses and repeats nothing: putting the markers back around the
      marked segments gives the text. */
  lemma {:induction false} CutRoundTrip(t: string, p: string, kind: Kind)
    requires MarkerOf(p, kind)
    ensures Source(Cut(t, p, kind)) == t
    decreases |t|
  {
    var k := Find(t, p);
    if k < 0 {
      assert Cut(t, p, kind) == PlainIfAny(t);
      SourcePlain(t);
    } else {
      var resto := t[k + |p|..];
      var k2 := Find(resto, p);
      if k2 < 0 {
        assert Cut(t, p, kind) == [Segment(Normal, t)];
        SourceOne(Segment(Normal, t));
      } else {
        var antes, inner, despues := t[..k], resto[..k2], resto[k2 + |p|..];
        CutRoundTrip(despues, p, kind);
        CutUnfold(t, p, kind, k, k2);
        CutRejoin(t, p, k, k2);
        MarkedTurnSource(antes, p, kind, inner, Cut(despues, p, kind));
      }
    }
  }

  /** The cut as written emits the same segments as the intended one: it only repeats
      the last. */
  lemma {:induction false} CutAsWrittenRepeats(t: string, p: string, kind: Kind)
    requires p != []
    ensures forall s :: s in CutAsWritten(t, p, kind) <==> s in Cut(t, p, kind)
    decreases |t|
  {
    var k := Find(t, p);
    if k < 0 {
      assert CutAsWritten(t, p, kind) == Cut(t, p, kind);
    } else {
      var resto := t[k + |p|..];
      var k2 := Find(resto, p);
      if k2 < 0 {
        assert CutAsWritten(t, p, kind) == [Segment(Normal, t), Segment(Normal, t)];
        assert Cut(t, p, kind) == [Segment(Normal, t)];
      } else {
        var emitted, despues := Emit(t[..k], kind, resto[..k2]), resto[k2 + |p|..];
        CutAsWrittenRepeats(despues, p, kind);
        assert CutAsWritten(t, p, kind) == emitted + CutAsWritten(despues, p, kind);
        assert Cut(t, p, kind) == emitted + Cut(despues, p, kind);
      }
    }
  }

  /** A segment a cut at `p` may emit: plain, or of the cut's kind without `p`. */
  predicate CleanOf(s: Segment, p: string, kind: Kind) {
    s.kind == Normal || (s.kind == kind && !Contains(s.text, p))
  }

  /** The text up to the first marker holds no marker. */
  lemma BeforeFirstClean(s: string, p: string, k: int)
    requires p != [] && k == Find(s, p) && k >= 0
    ensures !Contains(s[..k], p)
  {
    FindFirst(s, p);
    FirstOccurrence(s, p, k);
  }

  /** A turn whose marked text holds no marker, before clean segments. */
  lemma EmitClean(antes: string, kind: Kind, inner: string, rest: seq<Segment>, p: string)
    requires !Contains(inner, p)
    requires forall s :: s in rest ==> CleanOf(s, p, kind)
    ensures forall s :: s in Emit(antes, kind, inner) + rest ==> CleanOf(s, p, kind)
  {
    forall s | s in Emit(antes, kind, inner) + rest
      ensures CleanOf(s, p, kind)
    {
      if s !in rest {
        assert s in Emit(antes, kind, inner);
      }
    }
  }

  /** The cut emits plain segments and segments of its kind, and these never hold the
      marker. */
  lemma {:induction false} CutClean(t: string, p: string, kind: Kind)
    requires p != []
    ensures forall s :: s in Cut(t, p, kind) ==> CleanOf(s, p, kind)
    decreases |t|
  {
    var k := Find(t, p);
    if k < 0 {
      assert Cut(t, p, kind) == PlainIfAny(t);
    } else {
      var resto := t[k + |p|..];
      var k2 := Find(resto, p);
      if k2 < 0 {
        assert Cut(t, p, kind) == [Segment(Normal, t)];
      } else {
        CutUnfold(t, p, kind, k, k2);
        BeforeFirstClean(resto, p, k2);
        CutClean(resto[k2 + |p|..], p, kind);
        EmitClean(t[..k], kind, resto[..k2], Cut(resto[k2 + |p|..], p, kind), p);
      }
    }
  }

  // ---------------------------------------------------------------------------
  // Second pass: italic, on the plain segments

  /** Removing the first `c` removes one from the count. */
  lemma {:induction false} CountAfterFirst(t: string, c: char)
    requires c in t
    ensures Count(t[IndexOf(t, c) + 1..], c) == Count(t, c) - 1
  {
    if t[0] != c {
      CountAfterFirst(t[1..], c);
      assert t[IndexOf(t, c) + 1..] == t[1..][IndexOf(t[1..], c) + 1..];
    }
  }

  /** One turn of the italic cut: the text before the first "*", the text between it
      and the next "*", and the rest after that. */
  function ItalicTurn(t: string): (r: (string, string, string))
    requires Count(t, '*') >= 2
    ensures t == r.0 + (['*'] + r.1 + ['*']) + r.2
    ensures '*' !in r.0 && '*' !in r.1
  {
    var k := IndexOf(t, '*');
    var resto := t[k + 1..];
    CountAfterFirst(t, '*');
    var k2 := IndexOf(resto, '*');
    RejoinChar(t, '*', k, k2);
    (t[..k], resto[..k2], resto[k2 + 1..])
  }

  /** The turn at the first star and the next. */
  lemma ItalicTurnAt(t: string, k: int, k2: int)
    requires Count(t, '*') >= 2 && k == IndexOf(t, '*')
    requires '*' in t[k + 1..] && k2 == IndexOf(t[k + 1..], '*')
    ensures ItalicTurn(t) == (t[..k], t[k + 1..][..k2], t[k + 1..][k2 + 1..])
  {
  }

  /** The italic cut of a text with two stars or more: a turn, then the cut of the
      rest. */
  lemma ItalicUnfold(t: string)
    requires Count(t, '*') >= 2
    ensures ItalicSplit(t) == Emit(ItalicTurn(t).0, Italic, ItalicTurn(t).1) + ItalicSplit(ItalicTurn(t).2)
  {
  }

  /** The cut of one plain text at pairs of "*"; a single "*" left over stays plain.
      Since the loop runs only while two stars remain, the closing star is always
      found. */
  function ItalicSplit(t: string): seq<Segment>
    decreases |t|
  {
    if Count(t, '*') < 2 then PlainIfAny(t)
    else
      var turn := ItalicTurn(t);
      Emit(turn.0, Italic, turn.1) + ItalicSplit(turn.2)
  }

  /** One turn of the inner loop of the second pass: the text before the first star,
      the italic text up to the next one, and what follows. */
  method ItalicStep(segs: seq<Segment>, temp: string, ghost texto: string) returns (next: seq<Segment>, despues: string)
    requires Count(temp, '*') >= 2
    requires segs + ItalicSplit(temp) == ItalicSplit(texto)
    ensures next + ItalicSplit(despues) == ItalicSplit(texto) && |despues| < |temp|
  {
    var k := IndexOf(temp, '*');
    var antes, resto := temp[..k], temp[k + 1..];
    CountAfterFirst(temp, '*');
    var k2 := IndexOf(resto, '*');
    var cursiva := resto[..k2];
    despues := resto[k2 + 1..];
    ItalicTurnAt(temp, k, k2);
    ItalicUnfold(temp);
    var emitted := Emit(antes, Italic, cursiva);
    Assoc(segs, emitted, ItalicSplit(despues));
    next := segs + emitted;
  }

  /** Fewer than two stars: the italic cut keeps the text as it is. */
  lemma ItalicDone(t: string)
    ensures Count(t, '*') < 2 ==> ItalicSplit(t) == PlainIfAny(t)
  {
  }

  /** The inner loop of the second pass. */
  method ItalicLoop(texto: string) returns (segs: seq<Segment>)
    ensures segs == ItalicSplit(texto)
  {
    segs := [];
    var temp := texto;
    assert segs + ItalicSplit(temp) == ItalicSplit(texto);
    while '*' in temp && Count(temp, '*') >= 2
      invariant segs + ItalicSplit(temp) == ItalicSplit(texto)
      decreases |temp|
    {
      segs, temp := ItalicStep(segs, temp, texto);
    }
    ItalicDone(temp);
    if temp != "" {
      segs := segs + [Segment(Normal, temp)];
    }
  }

  /** The text of one italic turn, with its stars back, followed by more segments. */
  lemma ItalicTurnSource(antes: string, inner: string, rest: seq<Segment>)
    ensures Source(Emit(antes, Italic, inner) + rest) == antes + (['*'] + inner + ['*']) + Source(rest)
  {
    TurnSource(antes, Italic, inner, rest);
    assert Marked(Segment(Italic, inner)) == ['*'] + inner + ['*'];
  }

  /** Putting the stars back around the italic segments gives the text. */
  lemma {:induction false} ItalicSplitRoundTrip(t: string)
    ensures Source(ItalicSplit(t)) == t
    decreases |t|
  {
    if Count(t, '*') < 2 {
      SourcePlain(t);
    } else {
      var turn := ItalicTurn(t);
      ItalicSplitRoundTrip(turn.2);
      ItalicTurnSource(turn.0, turn.1, ItalicSplit(turn.2));
    }
  }

  /** The italic cut emits plain and italic segments, and italic text holds no "*". */
  lemma {:induction false} ItalicSplitKinds(t: string)
    ensures forall s :: s in ItalicSplit(t) ==> s.kind == Normal || (s.kind == Italic && '*' !in s.text)
    decreases |t|
  {
    if Count(t, '*') >= 2 {
      ItalicSplitKinds(ItalicTurn(t).2);
    }
  }

  /** The italic cut of one segment: a bold segment passes through. */
  function ItalicOne(s: Segment): seq<Segment> {
    if s.kind == Bold then [s] else ItalicSplit(s.text)
  }

  /** The italic cut of each segment. */
  function ItalicPass(segs: seq<Segment>): seq<Segment> {
    if segs == [] then []
    else ItalicPass(segs[..|segs| - 1]) + ItalicOne(segs[|segs| - 1])
  }

  /** The outer loop of the second pass. */
  method ItalicAll(segmentos: seq<Segment>) returns (finales: seq<Segment>)
    ensures finales == ItalicPass(segmentos)
  {
    finales := [];
    for i := 0 to |segmentos|
      invariant finales == ItalicPass(segmentos[..i])
    {
      Records.TakeSnoc(segmentos, i);
      if segmentos[i].kind == Bold {
        finales := finales + [segmentos[i]];
      } else {
        var cut := ItalicLoop(segmentos[i].text);
        finales := finales + cut;
      }
    }
    assert segmentos[..|segmentos|] == segmentos;
  }

  /** The italic cut of one plain or bold segment puts back what it cut. */
  lemma ItalicOneRoundTrip(s: Segment)
    requires s.kind == Normal || s.kind == Bold
    ensures Source(ItalicOne(s)) == Marked(s)
  {
    if s.kind == Bold {
      SourceOne(s);
    } else {
      ItalicSplitRoundTrip(s.text);
    }
  }

  lemma {:induction false} ItalicPassRoundTrip(segs: seq<Segment>)
    requires forall s :: s in segs ==> s.kind == Normal || s.kind == Bold
    ensures Source(ItalicPass(segs)) == Source(segs)
  {
    if segs != [] {
      var init, last := segs[..|segs| - 1], segs[|segs| - 1];
      assert forall s :: s in init ==> s in segs;
      calc {
        Source(ItalicPass(segs));
        Source(ItalicPass(init) + ItalicOne(last));
        { SourceAppend(ItalicPass(init), ItalicOne(last)); }
        Source(ItalicPass(init)) + Source(ItalicOne(last));
        { ItalicPassRoundTrip(init); ItalicOneRoundTrip(last); }
        Source(init) + Marked(last);
      }
    }
  }

  /** Over the bold pass's output, the italic pass keeps bold segments as they were
      and emits no code. */
  lemma {:induction false} ItalicPassKinds(segs: seq<Segment>)
    requires forall s :: s in segs ==> s.kind == Normal || s.kind == Bold
    ensures forall s :: s in ItalicPass(segs) ==>
      s.kind == Normal || (s.kind == Italic && '*' !in s.text) || (s.kind == Bold && s in segs)
  {
    if segs != [] {
      var init, last := segs[..|segs| - 1], segs[|segs| - 1];
      ItalicPassKinds(init);
      if last.kind != Bold {
        ItalicSplitKinds(last.text);
      }
    }
  }

  // ---------------------------------------------------------------------------
  // Third pass: inline code, on the plain segments

  /** The code cut of each plain segment, as written or as intended; bold and italic
      segments pass through. */
  function CodePass(segs: seq<Segment>, intended: bool): seq<Segment> {
    if segs == [] then []
    else CodePass(segs[..|segs| - 1], intended) + CodeOne(segs[|segs| - 1], intended)
  }

  /** The code cut of one segment: bold and italic segments pass through. */
  function CodeOne(s: Segment, intended: bool): seq<Segment> {
    if s.kind == Bold || s.kind == Italic then [s]
    else if intended then Cut(s.text, "`", Code) else CutAsWritten(s.text, "`", Code)
  }

  /** The outer loop of the third pass. */
  method CodeAll(finales: seq<Segment>) returns (codigo: seq<Segment>)
    ensures codigo == CodePass(finales, false)
  {
    codigo := [];
    for i := 0 to |finales|
      invariant codigo == CodePass(finales[..i], false)
    {
      Records.TakeSnoc(finales, i);
      if finales[i].kind == Bold || finales[i].kind == Italic {
        codigo := codigo + [finales[i]];
      } else {
        var cut := CodeLoop(finales[i].text);
        codigo := codigo + cut;
      }
    }
    assert finales[..|finales|] == finales;
  }

  /** The intended code cut of one segment that is not code puts back what it cut. */
  lemma CodeOneRoundTrip(s: Segment)
    requires s.kind != Code
    ensures Source(CodeOne(s, true)) == Marked(s)
  {
    if s.kind == Normal {
      CutRoundTrip(s.text, "`", Code);
    } else {
      SourceOne(s);
    }
  }

  lemma {:induction false} CodePassRoundTrip(segs: seq<Segment>)
    requires forall s :: s in segs ==> s.kind != Code
    ensures Source(CodePass(segs, true)) == Source(segs)
  {
    if segs != [] {
      var init, last := segs[..|segs| - 1], segs[|segs| - 1];
      assert forall s :: s in init ==> s in segs;
      calc {
        Source(CodePass(segs, true));
        Source(CodePass(init, true) + CodeOne(last, true));
        { SourceAppend(CodePass(init, true), CodeOne(last, true)); }
        Source(CodePass(init, true)) + Source(CodeOne(last, true));
        { CodePassRoundTrip(init); CodeOneRoundTrip(last); }
        Source(init) + Marked(last);
      }
    }
  }

  /** The code pass keeps bold and italic segments as they were, and its code holds
      no backtick. */
  lemma {:induction false} CodePassKinds(segs: seq<Segment>, intended: bool)
    requires forall s :: s in segs ==> s.kind != Code
    ensures forall s :: s in CodePass(segs, intended) ==>
      s.kind == Normal || (s.kind == Code && !Contains(s.text, "`")) || s in segs
  {
    if segs != [] {
      var init, last := segs[..|segs| - 1], segs[|segs| - 1];
      CodePassKinds(init, intended);
      if last.kind == Normal {
        CutClean(last.text, "`", Code);
        CutAsWrittenRepeats(last.text, "`", Code);
      }
    }
  }

  // ---------------------------------------------------------------------------
  // The three passes and the runs

  /** The segments of a text, as written and as intended. */
  function SegmentsAsWritten(texto: string): seq<Segment> {
    if texto == "" then [] else CodePass(ItalicPass(CutAsWritten(texto, "**", Bold)), false)
  }

  function Segments(texto: string): seq<Segment> {
    if texto == "" then [] else CodePass(ItalicPass(Cut(texto, "**", Bold)), true)
  }

  /** The runs added to the paragraph: the non-empty segments, in order. */
  function Runs(segs: seq<Segment>): seq<Segment> {
    if segs == [] then []
    else Runs(segs[..|segs| - 1]) + (if segs[|segs| - 1].text != "" then [segs[|segs| - 1]] else [])
  }

  /** Every run is a segment of the sequence, and none is empty. */
  lemma {:induction false} RunsFilled(segs: seq<Segment>)
    ensures forall s :: s in Runs(segs) ==> s in segs && s.text != ""
  {
    if segs != [] {
      var init, last := segs[..|segs| - 1], segs[|segs| - 1];
      RunsFilled(init);
      assert forall s :: s in init ==> s in segs;
    }
  }

  /** The last loop: one run per non-empty segment. */
  method AddRuns(codigo: seq<Segment>) returns (runs: seq<Segment>)
    ensures runs == Runs(codigo)
  {
    runs := [];
    for i := 0 to |codigo|
      invariant runs == Runs(codigo[..i])
    {
      Records.TakeSnoc(codigo, i);
      assert Runs(codigo[..i + 1]) == Runs(codigo[..i]) + (if codigo[i].text != "" then [codigo[i]] else []);
      if codigo[i].text != "" {
        runs := runs + [codigo[i]];
      }
    }
    assert codigo[..|codigo|] == codigo;
  }

  /** `procesar_texto_con_formato`: the runs of one paragraph. */
  method FormatRuns(texto: string) returns (runs: seq<Segment>)
    ensures runs == Runs(SegmentsAsWritten(texto))
  {
    if texto == "" {
      return [];
    }
    var segmentos := BoldLoop(texto);
    var finales := ItalicAll(segmentos);
    var codigo := CodeAll(finales);
    runs := AddRuns(codigo);
  }

  /** The intended segmentation loses and repeats nothing: with the markers put back,
      the segments spell the text. */
  lemma SegmentsRoundTrip(texto: string)
    ensures Source(Segments(texto)) == texto
  {
    if texto != "" {
      CutRoundTrip(texto, "**", Bold);
      CutClean(texto, "**", Bold);
      ItalicPassRoundTrip(Cut(texto, "**", Bold));
      ItalicPassKinds(Cut(texto, "**", Bold));
      CodePassRoundTrip(ItalicPass(Cut(texto, "**", Bold)));
    }
  }

  /** Formatted text never holds its own markers: no "**" in bold, no "*" in italic,
      no backtick in code, as written and as intended. */
  lemma SegmentsClean(texto: string, intended: bool)
    ensures var segs := if intended then Segments(texto) else SegmentsAsWritten(texto);
      forall s :: s in segs ==>
        s.kind == Normal || (s.kind == Bold && !Contains(s.text, "**")) ||
        (s.kind == Italic && '*' !in s.text) || (s.kind == Code && !Contains(s.text, "`"))
  {
    if texto != "" {
      var bold := if intended then Cut(texto, "**", Bold) else CutAsWritten(texto, "**", Bold);
      CutClean(texto, "**", Bold);
      CutAsWrittenRepeats(texto, "**", Bold);
      ItalicPassKinds(bold);
      CodePassKinds(ItalicPass(bold), intended);
    }
  }

  // ---------------------------------------------------------------------------
  // An unmatched marker, on examples

  /** "a**b" holds "**" once, at index 1. */
  lemma FindLoneBold()
    ensures Find("a**b", "**") == 1 && Find("b", "**") == -1
  {
  }

  /** The bold pass on "a**b": twice the whole text as written, once as intended. */
  lemma BoldOfLoneBold()
    ensures CutAsWritten("a**b", "**", Bold) == [Segment(Normal, "a**b"), Segment(Normal, "a**b")]
    ensures Cut("a**b", "**", Bold) == [Segment(Normal, "a**b")]
  {
    FindLoneBold();
    assert "a**b"[1 + 2..] == "b";
  }

  /** The italic cut of "a**b": the two stars are read as an empty italic pair. */
  lemma ItalicOfLoneBold()
    ensures ItalicSplit("a**b") == [Segment(Normal, "a"), Segment(Italic, ""), Segment(Normal, "b")]
  {
    var t := "a**b";
    assert Count(t, '*') == 2 by {
      assert t[1..] == "**b" && t[2..] == "*b" && t[3..] == "b" && t[4..] == "";
    }
    var k := IndexOf(t, '*');
    assert k == 1 by {
      assert t[0] != '*' && t[..2][1] == '*';
    }
    var resto := t[k + 1..];
    assert resto == "*b";
    var k2 := IndexOf(resto, '*');
    assert k2 == 0;
    assert resto[k2 + 1..] == "b";
    assert Count("b", '*') == 0;
    assert t[..k] == "a" && resto[..k2] == "";
  }

  /** A segment the code pass leaves alone: not code, no backtick, and not empty when
      plain. */
  predicate Untouched(s: Segment) {
    s.kind != Code && Find(s.text, "`") < 0 && (s.kind == Normal ==> s.text != "")
  }

  /** Such a segment is cut into itself, as written and as intended. */
  lemma CodeOneKeeps(s: Segment, intended: bool)
    requires Untouched(s)
    ensures CodeOne(s, intended) == [s]
  {
  }

  /** The code pass leaves such a segment alone after segments it left alone. */
  lemma CodePassKeepsOneMore(segs: seq<Segment>, s: Segment, intended: bool)
    requires Untouched(s) && CodePass(segs, intended) == segs
    ensures CodePass(segs + [s], intended) == segs + [s]
  {
    assert (segs + [s])[..|segs|] == segs;
    CodeOneKeeps(s, intended);
  }

  /** The runs of the italic cut of "a**b", once and twice. */
  lemma RunsOfCut(cut: seq<Segment>)
    requires cut == [Segment(Normal, "a"), Segment(Italic, ""), Segment(Normal, "b")]
    ensures Runs(cut) == [Segment(Normal, "a"), Segment(Normal, "b")]
    ensures Runs(cut + cut) == [Segment(Normal, "a"), Segment(Normal, "b"), Segment(Normal, "a"), Segment(Normal, "b")]
  {
    var a, e, b := Segment(Normal, "a"), Segment(Italic, ""), Segment(Normal, "b");
    var c2 := cut + cut;
    assert c2 == [a, e, b, a, e, b];
    assert c2[..5] == [a, e, b, a, e] && c2[..5][..4] == [a, e, b, a] && c2[..5][..4][..3] == cut;
    assert cut[..2] == [a, e] && cut[..2][..1] == [a] && [a][..0] == [];
    assert Runs([a]) == [a];
    assert Runs([a, e]) == [a];
    assert Runs(cut) == [a, b];
    assert Runs([a, e, b, a]) == [a, b, a];
    assert Runs([a, e, b, a, e]) == [a, b, a];
  }

  /** The code pass leaves the italic cut of "a**b" as it is, once and twice. */
  lemma CodeOfItalicCut(cut: seq<Segment>)
    requires cut == [Segment(Normal, "a"), Segment(Italic, ""), Segment(Normal, "b")]
    ensures CodePass(cut + cut, false) == cut + cut && CodePass(cut, true) == cut
  {
    var a, e, b := Segment(Normal, "a"), Segment(Italic, ""), Segment(Normal, "b");
    assert cut + cut == [a, e, b, a, e, b];
    assert Untouched(a) && Untouched(e) && Untouched(b);
    assert [] + [a] == [a] && [a] + [e] == [a, e] && [a, e] + [b] == cut;
    assert cut + [a] == [a, e, b, a] && [a, e, b, a] + [e] == [a, e, b, a, e];
    assert [a, e, b, a, e] + [b] == cut + cut;
    CodePassKeepsOneMore([], a, true);
    CodePassKeepsOneMore([a], e, true);
    CodePassKeepsOneMore([a, e], b, true);
    CodePassKeepsOneMore([], a, false);
    CodePassKeepsOneMore([a], e, false);
    CodePassKeepsOneMore([a, e], b, false);
    CodePassKeepsOneMore(cut, a, false);
    CodePassKeepsOneMore([a, e, b, a], e, false);
    CodePassKeepsOneMore([a, e, b, a, e], b, false);
  }

  /** The first two passes on "a**b": the italic cut twice as written, once as
      intended. */
  lemma BoldItalicOfLoneBold()
    ensures var cut := [Segment(Normal, "a"), Segment(Italic, ""), Segment(Normal, "b")];
      ItalicPass(CutAsWritten("a**b", "**", Bold)) == cut + cut && ItalicPass(Cut("a**b", "**", Bold)) == cut
  {
    BoldOfLoneBold();
    ItalicOfLoneBold();
    ItalicPassRepeat(Segment(Normal, "a**b"));
  }

  /** The italic pass of a plain segment, once and twice. */
  lemma ItalicPassRepeat(n: Segment)
    requires n.kind == Normal
    ensures ItalicPass([n]) == ItalicSplit(n.text)
    ensures ItalicPass([n, n]) == ItalicSplit(n.text) + ItalicSplit(n.text)
  {
    assert ItalicPass([n]) == ItalicPass([]) + ItalicSplit(n.text) by {
      assert [n][..0] == [];
    }
    assert ItalicPass([n, n]) == ItalicPass([n]) + ItalicSplit(n.text) by {
      assert [n, n][..1] == [n];
    }
  }

  /** "a**b": the runs as written are "a", "b", "a", "b" (the lone "**" is read as an
      empty italic pair, which adds no run); as intended they are "a", "b". */
  lemma UnmatchedBoldExample()
    ensures Runs(SegmentsAsWritten("a**b")) ==
            [Segment(Normal, "a"), Segment(Normal, "b"), Segment(Normal, "a"), Segment(Normal, "b")]
    ensures Runs(Segments("a**b")) == [Segment(Normal, "a"), Segment(Normal, "b")]
  {
    var cut := [Segment(Normal, "a"), Segment(Italic, ""), Segment(Normal, "b")];
    BoldItalicOfLoneBold();
    CodeOfItalicCut(cut);
    RunsOfCut(cut);
  }

  /** A non-empty segment after others is one more run. */
  lemma RunsOneMore(segs: seq<Segment>, s: Segment)
    requires s.text != ""
    ensures Runs(segs + [s]) == Runs(segs) + [s]
  {
    assert (segs + [s])[..|segs|] == segs;
  }

  /** The first two passes leave "a`b" whole. */
  lemma BoldItalicOfLoneCode()
    ensures ItalicPass(CutAsWritten("a`b", "**", Bold)) == [Segment(Normal, "a`b")]
    ensures ItalicPass(Cut("a`b", "**", Bold)) == [Segment(Normal, "a`b")]
  {
    var t := "a`b";
    var n := Segment(Normal, t);
    assert Find(t, "**") == -1;
    assert Count(t, '*') == 0;
    assert [n][..0] == [];
  }

  /** The code pass on "a`b": twice the whole text as written, once as intended. */
  lemma CodeOfLoneCode()
    ensures CodePass([Segment(Normal, "a`b")], false) == [Segment(Normal, "a`b"), Segment(Normal, "a`b")]
    ensures CodePass([Segment(Normal, "a`b")], true) == [Segment(Normal, "a`b")]
  {
    var t := "a`b";
    var n := Segment(Normal, t);
    assert Find(t, "`") == 1;
    assert t[1 + 1..] == "b";
    assert Find("b", "`") == -1;
    CutAsWrittenOpen(t, "`", Code, 1);
    CutOpen(t, "`", Code, 1);
    CodePassOne(n, false);
    CodePassOne(n, true);
  }

  /** The code pass on one segment is its code cut. */
  lemma CodePassOne(s: Segment, intended: bool)
    ensures CodePass([s], intended) == CodeOne(s, intended)
  {
    assert [s][..0] == [];
  }

  /** "a`b": the code cut as written gives the whole text twice, as intended once. */
  lemma UnmatchedCodeExample()
    ensures Runs(SegmentsAsWritten("a`b")) == [Segment(Normal, "a`b"), Segment(Normal, "a`b")]
    ensures Runs(Segments("a`b")) == [Segment(Normal, "a`b")]
  {
    SegmentsOfLoneCode();
    RunsOfCopies(Segment(Normal, "a`b"));
  }

  /** The three passes on "a`b". */
  lemma SegmentsOfLoneCode()
    ensures SegmentsAsWritten("a`b") == [Segment(Normal, "a`b"), Segment(Normal, "a`b")]
    ensures Segments("a`b") == [Segment(Normal, "a`b")]
  {
    BoldItalicOfLoneCode();
    CodeOfLoneCode();
  }

  /** A filled segment, once or twice, is its own list of runs. */
  lemma RunsOfCopies(n: Segment)
    requires n.text != ""
    ensures Runs([n]) == [n] && Runs([n, n]) == [n, n]
  {
    assert [] + [n] == [n] && [n] + [n] == [n, n];
    RunsOneMore([], n);
    RunsOneMore([n], n);
  }
}
