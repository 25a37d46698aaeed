/**
 * How both itinerary handlers read the model's reply: the first fenced
 * ```` ```json ```` block found by the lazy pattern ```` /```json\n([\s\S]*?)\n```/ ````
 * is handed to `JSON.parse`; anything else degrades to the raw text.
 */
module Reply {
  import opened Wrappers
  import opened Text

  /** The opening fence: three back-ticks, `json` and a line break. */
  const Opener := "```json\n"
  /** The closing fence: a line break and three back-ticks. */
  const Closer := "\n```"

  /**
   * The pattern matches at `open` with the capture ending at `close`: the
   * opening fence at `open`, the closing fence at `close`, and the capture
   * being everything in between.
   */
  ghost predicate IsMatch(s: string, open: int, close: int) {
    OccursAt(s, Opener, open) && open + |Opener| <= close && OccursAt(s, Closer, close)
  }

  /** Where a match sits: the index of the opening fence and of the closing fence. */
  datatype Block = Block(open: nat, close: nat)

  /**
   * `s.match(/```json\n([\s\S]*?)\n```/)`: the leftmost match, and among the
   * matches at that position the shortest capture.
   */
  function FindBlock(s: string): (r: Option<Block>)
    ensures r.Some? ==> IsMatch(s, r.value.open, r.value.close)
    ensures r.Some? ==> forall p, q :: IsMatch(s, p, q) ==>
              r.value.open < p || (r.value.open == p && r.value.close <= q)
    ensures r.None? <==> forall p, q :: !IsMatch(s, p, q)
  {
    match IndexOf(s, Opener, 0)
    case None => None
    case Some(p) =>
      match IndexOf(s, Closer, p + |Opener|)
      case None =>
        assert forall p', q :: IsMatch(s, p', q) ==> p <= p' && p + |Opener| <= q;
        None
      case Some(q) =>
        assert IsMatch(s, p, q);
        Some(Block(p, q))
  }

  /** The capture group `jsonMatch[1]` of a match. */
  function Capture(s: string, b: Block): string
    requires IsMatch(s, b.open, b.close)
  {
    s[b.open + |Opener|..b.close]
  }

  /** What a handler answers: the parsed block, or `{itinerary: text, format: "text"}`. */
  datatype Outcome<J> = Parsed(value: J) | TextFormat(itinerary: string)

  /**
   * The classification in a handler's inner `try`: a non-empty capture that
   * parses gives the parsed value; no match, an empty capture (a falsy
   * `jsonMatch[1]`) or a parse error give the raw reply in text format.
   * `JSON.parse` is the oracle `parse`, `None` standing for a thrown error.
   */
  function Classify<J>(s: string, parse: string -> Option<J>): (r: Outcome<J>)
    ensures r.TextFormat? ==> r.itinerary == s
    ensures r.Parsed? <==>
              (FindBlock(s).Some? && Capture(s, FindBlock(s).value) != ""
               && parse(Capture(s, FindBlock(s).value)).Some?)
    ensures r.Parsed? ==> Some(r.value) == parse(Capture(s, FindBlock(s).value))
  {
    match FindBlock(s)
    case None => TextFormat(s)
    case Some(b) =>
      var body := s[b.open + |Opener|..b.close];
      if body == "" then TextFormat(s)
      else
        match parse(body)
        case None => TextFormat(s)
        case Some(v) => Parsed(v)
  }

  /** The capture never holds the closing fence: the first closing fence ends it. */
  lemma CaptureAvoidsCloser(s: string)
    requires FindBlock(s).Some?
    ensures !Contains(Capture(s, FindBlock(s).value), Closer)
  {
    var b := FindBlock(s).value;
    var c := Capture(s, b);
    if Contains(c, Closer) {
      var i :| 0 <= i <= |c| && OccursAt(c, Closer, i);
      OccursInSlice(s, Closer, b.open + |Opener|, b.close, i);
    }
  }

  /** A reply without an opening fence is returned as text, whole. */
  lemma NoFenceGivesText<J>(s: string, parse: string -> Option<J>)
    requires !Contains(s, Opener)
    ensures Classify(s, parse) == TextFormat(s)
  {
  }

  /** No opening fence starts before `open`. */
  ghost predicate NoOpenerBefore(s: string, open: int) {
    forall p | 0 <= p < open :: !OccursAt(s, Opener, p)
  }

  /** No closing fence starts in `from..close`. */
  ghost predicate NoCloserWithin(s: string, from: int, close: int) {
    forall q | from <= q < close :: !OccursAt(s, Closer, q)
  }

  /**
   * A match with no opening fence before it and no closing fence inside its
   * capture is the one the pattern finds.
   */
  lemma MatchIsFound(s: string, open: nat, close: nat)
    requires IsMatch(s, open, close)
    requires NoOpenerBefore(s, open)
    requires NoCloserWithin(s, open + |Opener|, close)
    ensures FindBlock(s) == Some(Block(open, close))
  {
    assert FindBlock(s).Some?;
    var b := FindBlock(s).value;
    assert b.open <= open && (b.open == open ==> b.close <= close);
    assert b.open == open;
  }

  /** The text of a reply laid out as `before`, a block around `content`, and `after`. */
  function LaidOut(before: string, content: string, after: string): (s: string)
    ensures |s| == |before| + |Opener| + |content| + |Closer| + |after|
  {
    before + Opener + content + Closer + after
  }

  /** In a laid-out reply the fences sit where they were put, with `content` between them. */
  lemma LaidOutFences(before: string, content: string, after: string, open: nat, close: nat)
    requires open == |before| && close == open + |Opener| + |content|
    ensures IsMatch(LaidOut(before, content, after), open, close)
    ensures Capture(LaidOut(before, content, after), Block(open, close)) == content
  {
    var s := LaidOut(before, content, after);
    assert s[open..open + |Opener|] == Opener;
    assert s[close..close + |Closer|] == Closer;
    assert s[open + |Opener|..close] == content;
  }

  /** No opening fence starts inside `before` when none starts in `before` plus the fence's first seven characters. */
  lemma LaidOutNoEarlierOpener(before: string, content: string, after: string, open: nat)
    requires open == |before|
    requires !Contains(before + Opener[..|Opener| - 1], Opener)
    ensures NoOpenerBefore(LaidOut(before, content, after), open)
  {
    var s := LaidOut(before, content, after);
    var head := before + Opener[..|Opener| - 1];
    assert s[..|head|] == head;
    forall p | 0 <= p < open
      ensures !OccursAt(s, Opener, p)
    {
      OccursInSlice(s, Opener, 0, |head|, p);
    }
  }

  /** No closing fence starts inside `content` when none starts in `content` plus the fence's first three characters. */
  lemma LaidOutNoEarlierCloser(before: string, content: string, after: string, from: nat, close: nat)
    requires from == |before| + |Opener| && close == from + |content|
    requires !Contains(content + Closer[..|Closer| - 1], Closer)
    ensures NoCloserWithin(LaidOut(before, content, after), from, close)
  {
    var s := LaidOut(before, content, after);
    var body := content + Closer[..|Closer| - 1];
    assert s[from..from + |body|] == body;
    forall q | from <= q < close
      ensures !OccursAt(s, Closer, q)
    {
      OccursInSlice(s, Closer, from, from + |body|, q - from);
    }
  }

  /** Where the block of a laid-out reply sits. */
  function LaidOutBlock(before: string, content: string): Block {
    Block(|before|, |before| + |Opener| + |content|)
  }

  /** `FindsLaidOutBlock` with the fence positions named. */
  lemma FindsBlockAt(before: string, content: string, after: string, open: nat, close: nat)
    requires open == |before| && close == open + |Opener| + |content|
    requires !Contains(before + Opener[..|Opener| - 1], Opener)
    requires !Contains(content + Closer[..|Closer| - 1], Closer)
    ensures FindBlock(LaidOut(before, content, after)) == Some(Block(open, close))
    ensures Capture(LaidOut(before, content, after), Block(open, close)) == content
  {
    LaidOutFences(before, content, after, open, close);
    LaidOutNoEarlierOpener(before, content, after, open);
    LaidOutNoEarlierCloser(before, content, after, open + |Opener|, close);
    MatchIsFound(LaidOut(before, content, after), open, close);
  }

  /**
   * A reply laid out as `before`, a block around `content`, and `after`,
   * where no opening fence starts inside `before` and no closing fence
   * starts inside `content`, is matched at exactly that block, and the
   * capture is `content`.
   */
  lemma FindsLaidOutBlock(before: string, content: string, after: string)
    requires !Contains(before + Opener[..|Opener| - 1], Opener)
    requires !Contains(content + Closer[..|Closer| - 1], Closer)
    ensures FindBlock(LaidOut(before, content, after)) == Some(LaidOutBlock(before, content))
    ensures Capture(LaidOut(before, content, after), LaidOutBlock(before, content)) == content
  {
    var b := LaidOutBlock(before, content);
    FindsBlockAt(before, content, after, b.open, b.close);
  }

  /** A laid-out block with non-empty content is parsed, or degrades to the whole text. */
  lemma ClassifyLaidOut<J>(before: string, content: string, after: string, parse: string -> Option<J>)
    requires !Contains(before + Opener[..|Opener| - 1], Opener)
    requires !Contains(content + Closer[..|Closer| - 1], Closer)
    ensures var s := LaidOut(before, content, after);
            Classify(s, parse) == if content != "" && parse(content).Some? then Parsed(parse(content).value)
                                  else TextFormat(s)
  {
    FindsLaidOutBlock(before, content, after);
  }

  /**
   * An empty first block makes the whole reply text, even when a later
   * block holds JSON.
   */
  lemma EmptyFirstBlockGivesText<J>(before: string, after: string, parse: string -> Option<J>)
    requires !Contains(before + Opener[..|Opener| - 1], Opener)
    ensures Classify(LaidOut(before, "", after), parse) == TextFormat(LaidOut(before, "", after))
  {
    assert !Contains("" + Closer[..|Closer| - 1], Closer) by {
      assert |"" + Closer[..|Closer| - 1]| < |Closer|;
    }
    ClassifyLaidOut(before, "", after, parse);
  }
}
