/**
 * The extension-backed input method engine on Chrome OS.
 *
 * The engine is active between `Enable` and `Disable`; focusing a text
 * field while active hands out a fresh context id, and every operation an
 * extension performs on a context (composition, commit, candidates, cursor,
 * surrounding text) is rejected first when the engine is inactive and then
 * when the context id is not the focused one.  `SetCandidates` rebuilds the
 * table from candidate ids to their positions in the candidate window.
 *
 * The IME bridge, the observer and the histograms are outside the model:
 * an observer notification becomes the method's result, the current text
 * input type and the clock are parameters, and text arrives already
 * converted to UTF-16 except where its UTF-8 bytes are counted.
 */
module InputMethodEngine {
  import opened Wrappers

  const ErrorNotActive := "IME is not active"
  const ErrorWrongContext := "Context is not active"
  const CandidateNotFound := "Candidate not found"

  // ---------------------------------------------------------------------
  // Counting UTF-8 characters
  // ---------------------------------------------------------------------

  type Byte = bv8

  /** A byte of the form 10xxxxxx continues a multi-byte UTF-8 sequence. */
  predicate IsContinuation(b: Byte)
  {
    b & 0xC0 == 0x80
  }

  lemma ContinuationRange(b: Byte)
    ensures IsContinuation(b) <==> 0x80 <= b < 0xC0
  {
  }

  /** The number of bytes of `s` that start a character. */
  function LeadBytes(s: seq<Byte>): (n: nat)
    ensures n <= |s|
  {
    if s == [] then 0 else LeadBytes(s[..|s| - 1]) + (if IsContinuation(s[|s| - 1]) then 0 else 1)
  }

  /** The string a `const char*` points at: the bytes before the first NUL (or all of them). */
  function CString(s: seq<Byte>): (c: seq<Byte>)
    ensures |c| <= |s| && c == s[..|c|] && 0 !in c
    ensures |c| < |s| ==> s[|c|] == 0
  {
    if s == [] || s[0] == 0 then [] else [s[0]] + CString(s[1..])
  }

  /** `GetUtf8StringLength`: counts the bytes of the C string that are not continuation bytes. */
  method GetUtf8StringLength(s: seq<Byte>) returns (n: nat)
    ensures n == LeadBytes(CString(s))
    ensures n <= |CString(s)|
  {
    n := 0;
    var i := 0;
    while i < |s| && s[i] != 0
      invariant 0 <= i <= |s| && 0 !in s[..i]
      invariant n == LeadBytes(s[..i])
    {
      if s[i] & 0xC0 != 0x80 {
        n := n + 1;
      }
      assert s[..i + 1][..i] == s[..i];
      i := i + 1;
    }
    CStringIsPrefix(s, i);
  }

  lemma {:induction false} CStringIsPrefix(s: seq<Byte>, i: nat)
    requires i <= |s| && 0 !in s[..i] && (i == |s| || s[i] == 0)
    ensures CString(s) == s[..i]
  {
    if i > 0 {
      assert s[1..][..i - 1] == s[1..i];
      assert 0 !in s[1..][..i - 1];
      CStringIsPrefix(s[1..], i - 1);
    }
  }

  /** On ASCII text every byte is a character. */
  lemma {:induction false} AsciiCountsEveryByte(s: seq<Byte>)
    requires forall i :: 0 <= i < |s| ==> s[i] < 0x80
    ensures LeadBytes(s) == |s|
  {
    if s != [] {
      ContinuationRange(s[|s| - 1]);
      AsciiCountsEveryByte(s[..|s| - 1]);
    }
  }

  type CodePoint = c: int | 0 <= c < 0x11_0000

  /** The UTF-8 encoding of one code point: a lead byte followed by continuation bytes. */
  function EncodeCodePoint(c: CodePoint): (bytes: seq<Byte>)
    ensures 1 <= |bytes| <= 4
    ensures !IsContinuation(bytes[0])
    ensures forall i :: 1 <= i < |bytes| ==> IsContinuation(bytes[i])
    ensures (bytes[0] == 0) <==> c == 0
  {
    if c < 0x80 then
      Lead(c, 0)
    else if c < 0x800 then
      Lead(0xC0 + c / 0x40, 0xC0) + [Tail(c)]
    else if c < 0x1_0000 then
      Lead(0xE0 + c / 0x1000, 0xC0) + [Tail(c / 0x40), Tail(c)]
    else
      Lead(0xF0 + c / 0x4_0000, 0xC0) + [Tail(c / 0x1000), Tail(c / 0x40), Tail(c)]
  }

  /** A lead byte of value `v`, which is below 0x80 or at least `floor`. */
  function Lead(v: int, floor: int): (b: seq<Byte>)
    requires 0 <= v < 0x100 && (v < 0x80 || (floor == 0xC0 && floor <= v))
    ensures |b| == 1 && !IsContinuation(b[0]) && (b[0] == 0 <==> v == 0)
  {
    var x := v as bv8;
    assert v < 0x80 ==> x < 0x80;
    assert v >= 0xC0 ==> x >= 0xC0;
    ContinuationRange(x);
    [x]
  }

  /** The continuation byte carrying the low six bits of `v`. */
  function Tail(v: int): (b: Byte)
    requires v >= 0
    ensures IsContinuation(b)
  {
    var x := (0x80 + v % 0x40) as bv8;
    assert 0x80 <= x < 0xC0;
    ContinuationRange(x);
    x
  }

  function Utf8Encode(text: seq<CodePoint>): seq<Byte>
  {
    if text == [] then [] else Utf8Encode(text[..|text| - 1]) + EncodeCodePoint(text[|text| - 1])
  }

  /** Counting the lead bytes of an encoded text gives back its number of code points. */
  lemma {:induction false} CountOfEncodedText(text: seq<CodePoint>)
    ensures LeadBytes(Utf8Encode(text)) == |text|
  {
    if text != [] {
      CountOfEncodedText(text[..|text| - 1]);
      LeadBytesAppend(Utf8Encode(text[..|text| - 1]), EncodeCodePoint(text[|text| - 1]));
      OneLeadByte(EncodeCodePoint(text[|text| - 1]));
    }
  }

  lemma {:induction false} LeadBytesAppend(a: seq<Byte>, b: seq<Byte>)
    ensures LeadBytes(a + b) == LeadBytes(a) + LeadBytes(b)
    decreases |b|
  {
    if b == [] {
      assert a + b == a;
    } else {
      assert (a + b)[..|a + b| - 1] == a + b[..|b| - 1];
      assert (a + b)[|a + b| - 1] == b[|b| - 1];
      LeadBytesAppend(a, b[..|b| - 1]);
    }
  }

  lemma {:induction false} OneLeadByte(bytes: seq<Byte>)
    requires bytes != [] && !IsContinuation(bytes[0])
    requires forall i :: 1 <= i < |bytes| ==> IsContinuation(bytes[i])
    ensures LeadBytes(bytes) == 1
  {
    if |bytes| > 1 {
      OneLeadByte(bytes[..|bytes| - 1]);
    }
  }

  // ---------------------------------------------------------------------
  // Error precedence and candidate tables
  // ---------------------------------------------------------------------

  /**
   * The check every context-bound operation starts with: inactive first,
   * then a context id that is not the focused one (or no focus at all).
   */
  function ContextError(active: bool, focusedContext: int, contextId: int): (error: Option<string>)
    ensures error.None? <==> active && contextId == focusedContext && focusedContext != -1
    ensures !active ==> error == Some(ErrorNotActive)
    ensures active && error.Some? ==> error == Some(ErrorWrongContext)
  {
    if !active then Some(ErrorNotActive)
    else if contextId != focusedContext || focusedContext == -1 then Some(ErrorWrongContext)
    else None
  }

  /** `indexes` maps every id of `ids`, and only those, to the position of its last occurrence. */
  ghost predicate LastOccurrences(ids: seq<int>, indexes: map<int, int>)
  {
    && (forall id :: id in indexes <==> id in ids)
    && (forall id :: id in indexes ==> 0 <= indexes[id] < |ids| && ids[indexes[id]] == id)
    && (forall id, j :: id in indexes && indexes[id] < j < |ids| ==> ids[j] != id)
  }

  /** The table of last occurrences is determined by the id list. */
  lemma LastOccurrencesUnique(ids: seq<int>, a: map<int, int>, b: map<int, int>)
    requires LastOccurrences(ids, a) && LastOccurrences(ids, b)
    ensures a == b
  {
    assert a.Keys == b.Keys by {
      forall id
        ensures id in a.Keys <==> id in b.Keys
      {
        assert id in a <==> id in ids;
        assert id in b <==> id in ids;
      }
    }
    forall id | id in a
      ensures a[id] == b[id]
    {
      assert ids[a[id]] == id && ids[b[id]] == id;
    }
  }

  lemma LastOccurrencesAppend(ids: seq<int>, indexes: map<int, int>, id: int)
    requires LastOccurrences(ids, indexes)
    ensures LastOccurrences(ids + [id], indexes[id := |ids|])
  {
    var ids' := ids + [id];
    var indexes' := indexes[id := |ids|];
    forall x | x in indexes'
      ensures 0 <= indexes'[x] < |ids'| && ids'[indexes'[x]] == x
    {
    }
    forall x, j | x in indexes' && indexes'[x] < j < |ids'|
      ensures ids'[j] != x
    {
      if j < |ids| {
        assert ids'[j] == ids[j];
      }
    }
  }

  // ---------------------------------------------------------------------
  // Data passed in by the extension
  // ---------------------------------------------------------------------

  datatype TextInputType = InputNone | InputText | InputSearch | InputTelephone | InputUrl | InputEmail
                         | InputNumber | InputPassword | InputOther

  /** The context type an extension is told about on focus. */
  function ContextTypeName(t: TextInputType): (name: string)
    ensures name != []
  {
    match t
    case InputSearch => "search"
    case InputTelephone => "tel"
    case InputUrl => "url"
    case InputEmail => "email"
    case InputNumber => "number"
    case InputPassword => "password"
    case _ => "text"
  }

  /** What the observer's `OnFocus` receives. */
  datatype InputContext = InputContext(id: int, contextType: string)

  datatype SegmentStyle = SegmentUnderline | SegmentDoubleUnderline | SegmentNoUnderline
  datatype Segment = Segment(style: SegmentStyle, start: int, end: int)

  datatype UnderlineType = UnderlineSingle | UnderlineDouble
  datatype Underline = Underline(kind: UnderlineType, startIndex: int, endIndex: int)

  datatype Composition = Composition(text: string, selectionStart: int, selectionEnd: int, underlines: seq<Underline>)

  const EmptyComposition := Composition("", 0, 0, [])

  /** The underline a segment asks for, if its style draws one. */
  function UnderlineOf(s: Segment): (u: Option<Underline>)
    ensures u.Some? <==> s.style != SegmentNoUnderline
    ensures u.Some? ==> u.value.startIndex == s.start && u.value.endIndex == s.end
    ensures u.Some? ==> (u.value.kind == UnderlineDouble <==> s.style == SegmentDoubleUnderline)
  {
    match s.style
    case SegmentUnderline => Some(Underline(UnderlineSingle, s.start, s.end))
    case SegmentDoubleUnderline => Some(Underline(UnderlineDouble, s.start, s.end))
    case SegmentNoUnderline => None
  }

  /** The underlines of the styled segments, in order. */
  function Underlines(segments: seq<Segment>): (us: seq<Underline>)
    ensures |us| <= |segments|
  {
    if segments == [] then []
    else
      var rest := Underlines(segments[..|segments| - 1]);
      match UnderlineOf(segments[|segments| - 1])
      case Some(u) => rest + [u]
      case None => rest
  }

  /** The number of segments whose style draws an underline. */
  function StyledCount(segments: seq<Segment>): nat
  {
    |set i | 0 <= i < |segments| && segments[i].style != SegmentNoUnderline|
  }

  datatype Candidate = Candidate(id: int, value: string, labelText: string, annotation: string,
                                 usageTitle: string, usageBody: string)

  /** An entry of the candidate window. */
  datatype Entry = Entry(value: string, labelText: string, annotation: string, descriptionTitle: string,
                         descriptionBody: string)

  function EntryOf(c: Candidate): (e: Entry)
    ensures e.value == c.value && e.labelText == c.labelText && e.annotation == c.annotation
    ensures e.descriptionTitle == c.usageTitle && e.descriptionBody == c.usageBody
  {
    Entry(c.value, c.labelText, c.annotation, c.usageTitle, c.usageBody)
  }

  // ---------------------------------------------------------------------
  // Candidate clicks
  // ---------------------------------------------------------------------

  /** What a click on a candidate leads to. */
  datatype ClickOutcome = ClickIgnored | ClickReported(candidateId: int) | ClickOutOfRange

  /**
   * `CandidateClicked` as written: the guard lets `index == size` through
   * to `candidate_ids_.at(index)`, which throws.
   */
  function ClickAsWritten(ids: seq<int>, index: nat): (r: ClickOutcome)
    ensures index > |ids| ==> r == ClickIgnored
    ensures index < |ids| ==> r == ClickReported(ids[index])
  {
    if index > |ids| then ClickIgnored
    else if index < |ids| then ClickReported(ids[index])
    else ClickOutOfRange
  }

  /** With no candidates at all, a click on index 0 reaches the out-of-range access. */
  lemma ClickAsWrittenOnEmptyList()
    ensures ClickAsWritten([], 0) == ClickOutOfRange
  {
  }

  /** A click as intended: any index that is not a candidate's position is ignored. */
  function Click(ids: seq<int>, index: nat): (r: ClickOutcome)
    ensures r != ClickOutOfRange
    ensures r.ClickReported? <==> index < |ids|
    ensures r.ClickReported? ==> r.candidateId == ids[index]
  {
    if index >= |ids| then ClickIgnored else ClickReported(ids[index])
  }

  /** The two guards disagree on exactly one index: the list's size. */
  lemma ClickDiffersOnlyAtSize(ids: seq<int>, index: nat)
    ensures ClickAsWritten(ids, index) != Click(ids, index) <==> index == |ids|
  {
  }

  // ---------------------------------------------------------------------
  // The engine
  // ---------------------------------------------------------------------

  class Engine {
    var currentInputType: TextInputType
    var active: bool
    /** The focused context, or -1 when focus left a text field. */
    var contextId: int
    var nextContextId: int
    var composition: Composition
    var compositionCursor: int
    /** Candidate ids in window order. */
    var candidateIds: seq<int>
    /** Candidate id to its position in the window. */
    var candidateIndexes: map<int, int>
    var entries: seq<Entry>
    /** The candidate window's cursor. */
    var cursorPosition: int
    var windowVisible: bool
    var startTime: int
    var endTime: int

    /**
     * The engine's lasting facts: ids handed out are below the next one,
     * and the candidate tables agree with each other.
     */
    ghost predicate Valid()
      reads this
    {
      && 1 <= nextContextId
      && contextId < nextContextId
      && |entries| == |candidateIds|
      && LastOccurrences(candidateIds, candidateIndexes)
    }

    constructor ()
      ensures Valid()
      ensures currentInputType == InputNone && !active && contextId == 0 && nextContextId == 1
      ensures composition == EmptyComposition && compositionCursor == 0
      ensures candidateIds == [] && candidateIndexes == map[] && entries == []
      ensures !windowVisible && startTime == 0 && endTime == 0
    {
      currentInputType := InputNone;
      active := false;
      contextId := 0;
      nextContextId := 1;
      composition := EmptyComposition;
      compositionCursor := 0;
      candidateIds := [];
      candidateIndexes := map[];
      entries := [];
      cursorPosition := 0;
      windowVisible := false;
      startTime := 0;
      endTime := 0;
    }

    /**
     * Replaces the composition with `text`, its selection and the
     * underlines of the styled segments.
     */
    method SetComposition(contextId: int, text: string, selectionStart: int, selectionEnd: int, cursor: int,
                          segments: seq<Segment>) returns (ok: bool, error: Option<string>)
      requires Valid()
      modifies this
      ensures Valid()
      ensures ok <==> ContextError(old(active), old(this.contextId), contextId).None?
      ensures !ok ==> error == ContextError(old(active), old(this.contextId), contextId) && unchanged(this)
      ensures ok ==>
                && error.None? && compositionCursor == cursor
                && composition == Composition(text, selectionStart, selectionEnd, Underlines(segments))
      ensures ok ==> unchanged(this`active, this`contextId, this`nextContextId, this`candidateIds,
                               this`candidateIndexes, this`entries, this`cursorPosition, this`currentInputType,
                               this`windowVisible, this`startTime, this`endTime)
    {
      error := ContextError(active, this.contextId, contextId);
      if error.Some? {
        return false, error;
      }
      var underlines := BuildUnderlines(segments);
      compositionCursor := cursor;
      composition := Composition(text, selectionStart, selectionEnd, underlines);
      return true, None;
    }

    /** Empties the composition and resets its cursor. */
    method ClearComposition(contextId: int) returns (ok: bool, error: Option<string>)
      requires Valid()
      modifies this
      ensures Valid()
      ensures ok <==> ContextError(old(active), old(this.contextId), contextId).None?
      ensures !ok ==> error == ContextError(old(active), old(this.contextId), contextId) && unchanged(this)
      ensures ok ==> error.None? && composition == EmptyComposition && compositionCursor == 0
      ensures ok ==> unchanged(this`active, this`contextId, this`nextContextId, this`candidateIds,
                               this`candidateIndexes, this`entries, this`cursorPosition, this`currentInputType,
                               this`windowVisible, this`startTime, this`endTime)
    {
      error := ContextError(active, this.contextId, contextId);
      if error.Some? {
        return false, error;
      }
      compositionCursor := 0;
      composition := EmptyComposition;
      return true, None;
    }

    /**
     * Commits `text` to the focused field; on success the usage times are
     * updated (the start time only if it was never set) and `characters` is
     * the character count recorded for the commit.
     */
    method CommitText(contextId: int, text: seq<Byte>, now: int) returns (ok: bool, error: Option<string>, characters: nat)
      requires Valid()
      modifies this`startTime, this`endTime
      ensures ok <==> ContextError(active, this.contextId, contextId).None?
      ensures !ok ==> error == ContextError(active, this.contextId, contextId) && unchanged(this)
      ensures ok ==>
                && error.None? && characters == LeadBytes(CString(text)) && endTime == now
                && startTime == (if old(startTime) == 0 then now else old(startTime))
    {
      characters := 0;
      error := ContextError(active, this.contextId, contextId);
      if error.Some? {
        return false, error, characters;
      }
      if startTime == 0 {
        startTime := now;
      }
      endTime := now;
      characters := GetUtf8StringLength(text);
      return true, None, characters;
    }

    /**
     * The guard of `SendKeyEvents`: refused when inactive, and otherwise
     * accepted for context 0 (no input field) or the focused context.
     */
    method SendKeyEvents(contextId: int) returns (ok: bool)
      ensures ok <==> active && (contextId == 0 || ContextError(active, this.contextId, contextId).None?)
    {
      if !active {
        return false;
      }
      if contextId != 0 && (contextId != this.contextId || this.contextId == -1) {
        return false;
      }
      return true;
    }

    /** Shows or hides the candidate window; refused while inactive. */
    method SetCandidateWindowVisible(visible: bool) returns (ok: bool, error: Option<string>)
      modifies this`windowVisible
      ensures ok == old(active) && (ok ==> error.None? && windowVisible == visible)
      ensures !ok ==> error == Some(ErrorNotActive) && windowVisible == old(windowVisible)
    {
      if !active {
        return false, Some(ErrorNotActive);
      }
      windowVisible := visible;
      return true, None;
    }

    /**
     * Replaces the candidate list: the ids in order, each id's last
     * position, and one window entry per candidate.
     */
    method SetCandidates(contextId: int, candidates: seq<Candidate>) returns (ok: bool, error: Option<string>)
      requires Valid()
      modifies this`candidateIds, this`candidateIndexes, this`entries
      ensures Valid()
      ensures ok <==> ContextError(active, this.contextId, contextId).None?
      ensures !ok ==> error == ContextError(active, this.contextId, contextId) && unchanged(this)
      ensures ok ==> error.None? && |candidateIds| == |candidates| && |entries| == |candidates|
      ensures ok ==> forall i :: 0 <= i < |candidates| ==>
                       candidateIds[i] == candidates[i].id && entries[i] == EntryOf(candidates[i])
    {
      error := ContextError(active, this.contextId, contextId);
      if error.Some? {
        return false, error;
      }
      var ids: seq<int> := [];
      var indexes: map<int, int> := map[];
      var es: seq<Entry> := [];
      for i := 0 to |candidates|
        invariant |ids| == i && |es| == i
        invariant forall j :: 0 <= j < i ==> ids[j] == candidates[j].id && es[j] == EntryOf(candidates[j])
        invariant LastOccurrences(ids, indexes)
      {
        LastOccurrencesAppend(ids, indexes, candidates[i].id);
        indexes := indexes[candidates[i].id := |ids|];
        ids := ids + [candidates[i].id];
        es := es + [EntryOf(candidates[i])];
      }
      candidateIds, candidateIndexes, entries := ids, indexes, es;
      return true, None;
    }

    /** Moves the window's cursor to the candidate with the given id. */
    method SetCursorPosition(contextId: int, candidateId: int) returns (ok: bool, error: Option<string>)
      requires Valid()
      modifies this`cursorPosition
      ensures ok <==> ContextError(active, this.contextId, contextId).None? && candidateId in candidateIds
      ensures !ok ==> cursorPosition == old(cursorPosition)
      ensures !ok && ContextError(active, this.contextId, contextId).Some? ==>
                error == ContextError(active, this.contextId, contextId)
      ensures !ok && ContextError(active, this.contextId, contextId).None? ==> error == Some(CandidateNotFound)
      ensures ok ==>
                && error.None? && 0 <= cursorPosition < |candidateIds| && candidateIds[cursorPosition] == candidateId
                && forall j :: cursorPosition < j < |candidateIds| ==> candidateIds[j] != candidateId
    {
      error := ContextError(active, this.contextId, contextId);
      if error.Some? {
        return false, error;
      }
      if candidateId !in candidateIndexes {
        return false, Some(CandidateNotFound);
      }
      cursorPosition := candidateIndexes[candidateId];
      return true, None;
    }

    /**
     * Forwards a deletion around the cursor.  A negative offset is accepted
     * only when it deletes exactly the text before the cursor; that
     * refusal leaves the error untouched.
     */
    method DeleteSurroundingText(contextId: int, offset: int, numberOfChars: nat) returns (ok: bool, error: Option<string>)
      ensures ContextError(active, this.contextId, contextId).Some? ==>
                !ok && error == ContextError(active, this.contextId, contextId)
      ensures ContextError(active, this.contextId, contextId).None? ==>
                error.None? && (ok <==> offset >= 0 || -offset == numberOfChars)
    {
      error := ContextError(active, this.contextId, contextId);
      if error.Some? {
        return false, error;
      }
      if offset < 0 && -offset != numberOfChars {
        return false, None;
      }
      return true, None;
    }

    /**
     * Records the focused field's input type and, while active and the
     * field takes text, hands it the next context id and reports it.
     */
    method FocusIn(inputType: TextInputType) returns (focus: Option<InputContext>)
      requires Valid()
      modifies this`currentInputType, this`contextId, this`nextContextId
      ensures Valid()
      ensures currentInputType == inputType
      ensures !active || inputType == InputNone ==>
                focus.None? && contextId == old(contextId) && nextContextId == old(nextContextId)
      ensures active && inputType != InputNone ==>
                && contextId == old(nextContextId) && nextContextId == old(nextContextId) + 1
                && focus == Some(InputContext(contextId, ContextTypeName(inputType)))
                && contextId > old(contextId)
    {
      currentInputType := inputType;
      if !active || currentInputType == InputNone {
        return None;
      }
      contextId := nextContextId;
      nextContextId := nextContextId + 1;
      return Some(InputContext(contextId, ContextTypeName(currentInputType)));
    }

    /** Leaves a text field: forgets the context and reports the one that lost focus. */
    method FocusOut() returns (blurred: Option<int>)
      requires Valid()
      modifies this`currentInputType, this`contextId
      ensures Valid()
      ensures !active || old(currentInputType) == InputNone ==>
                blurred.None? && currentInputType == old(currentInputType) && contextId == old(contextId)
      ensures active && old(currentInputType) != InputNone ==>
                blurred == Some(old(contextId)) && currentInputType == InputNone && contextId == -1
    {
      if !active || currentInputType == InputNone {
        return None;
      }
      currentInputType := InputNone;
      var blurredId := contextId;
      contextId := -1;
      return Some(blurredId);
    }

    /** Activates the engine, focuses the current field and restarts the usage times. */
    method Enable(inputType: TextInputType) returns (focus: Option<InputContext>)
      requires Valid()
      modifies this`active, this`currentInputType, this`contextId, this`nextContextId, this`startTime, this`endTime
      ensures Valid() && active && currentInputType == inputType
      ensures startTime == 0 && endTime == 0
      ensures inputType == InputNone ==> focus.None? && contextId == old(contextId)
      ensures inputType != InputNone ==>
                contextId == old(nextContextId) && focus == Some(InputContext(contextId, ContextTypeName(inputType)))
    {
      active := true;
      currentInputType := inputType;
      focus := FocusIn(currentInputType);
      startTime := 0;
      endTime := 0;
    }

    /** Deactivates the engine; focus and candidates are left as they are. */
    method Disable()
      modifies this`active
      ensures !active
    {
      active := false;
    }

    /** Reports a click on the candidate at `index`; indexes past the list are ignored. */
    method CandidateClicked(index: nat) returns (clicked: Option<int>)
      ensures clicked.Some? <==> index < |candidateIds|
      ensures clicked.Some? ==> clicked.value == candidateIds[index]
      ensures Click(candidateIds, index) == (if clicked.Some? then ClickReported(clicked.value) else ClickIgnored)
    {
      if index >= |candidateIds| {
        return None;
      }
      return Some(candidateIds[index]);
    }
  }

  /** The loop of `SetComposition` that turns segments into underlines. */
  method BuildUnderlines(segments: seq<Segment>) returns (underlines: seq<Underline>)
    ensures underlines == Underlines(segments)
    ensures |underlines| == StyledCount(segments)
  {
    underlines := [];
    for i := 0 to |segments|
      invariant underlines == Underlines(segments[..i])
    {
      assert segments[..i + 1][..i] == segments[..i];
      match UnderlineOf(segments[i])
      case Some(u) => underlines := underlines + [u];
      case None =>
    }
    assert segments[..|segments|] == segments;
    UnderlineCount(segments);
  }

  /** One underline per styled segment. */
  lemma {:induction false} UnderlineCount(segments: seq<Segment>)
    ensures |Underlines(segments)| == StyledCount(segments)
  {
    if segments != [] {
      var n := |segments| - 1;
      var init := segments[..n];
      UnderlineCount(init);
      var styled := set i | 0 <= i < |segments| && segments[i].style != SegmentNoUnderline;
      var styledInit := set i | 0 <= i < n && init[i].style != SegmentNoUnderline;
      if segments[n].style != SegmentNoUnderline {
        assert styled == styledInit + {n};
      } else {
        assert styled == styledInit;
      }
    }
  }
}
