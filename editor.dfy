/** The editor surface of src/components/Editor.tsx: how a key event, an IME
    composition or a `beforeinput` event turns into the store transition it
    requests, and which part of the hidden text is rendered. */
module Editor {
  import opened Base
  import Store

  /** The fields of a keyboard event the handler looks at. `isComposing` is
      the flag the handler reads off the React event, which declares no such
      field, so there it is always undefined (false); `nativeIsComposing` is
      the native event's flag. */
  datatype KeyEvent = KeyEvent(
    key: string,
    metaKey: bool,
    ctrlKey: bool,
    isComposing: bool,
    nativeIsComposing: bool)

  /** The window selection at the time of the key event: whether it is
      collapsed, its range count, whether its anchor lies inside the editor,
      and the start offset and text length of its first range. */
  datatype Selection = Selection(
    isCollapsed: bool,
    rangeCount: nat,
    anchorInEditor: bool,
    startOffset: nat,
    length: nat)

  /** The transition a handler asks for. `DeleteSnippet` is only requested:
      what it would do to the text and offset is not part of this model. */
  datatype Request =
    | NoRequest
    | Reveal(n: int)
    | DeleteSnippet(text: string, start: nat, length: nat)

  /** A handler's whole effect: the request, and whether it cancelled the
      browser's default action. */
  datatype KeyOutcome = KeyOutcome(request: Request, preventDefault: bool)

  /** The keys passed through untouched as navigation. */
  const NAV_KEYS: seq<string> :=
    ["ArrowLeft", "ArrowRight", "ArrowUp", "ArrowDown", "Home", "End", "PageUp", "PageDown"]

  predicate IsModified(e: KeyEvent) {
    e.metaKey || e.ctrlKey
  }

  /** The event itself says an input method is mid-composition. */
  predicate ImeKeyDown(e: KeyEvent) {
    e.isComposing || e.nativeIsComposing || e.key == "Process"
  }

  predicate IsErase(e: KeyEvent) {
    e.key == "Backspace" || e.key == "Delete"
  }

  predicate IsNavigation(e: KeyEvent) {
    e.key in NAV_KEYS
  }

  /** A non-collapsed selection with a range, anchored inside the editor. */
  predicate SelectionInEditor(sel: Option<Selection>) {
    && sel.Some?
    && !sel.value.isCollapsed
    && sel.value.rangeCount > 0
    && sel.value.anchorInEditor
  }

  class EditorSurface {
    /** `composingRef`: set between composition start and composition end. */
    var composing: bool

    constructor ()
      ensures !composing
    {
      composing := false;
    }

    /** A key event that gets past the modifier and composition filters. */
    predicate Dispatched(e: KeyEvent)
      reads this
    {
      !IsModified(e) && !ImeKeyDown(e) && !composing
    }

    /** `onKeyDown`: classifies the event in a fixed order (modifier held,
        composing, erase with a selection, plain erase, navigation, anything
        else); `rate` is the store's characters per keystroke and `text` the
        document text the editor holds. */
    method OnKeyDown(e: KeyEvent, sel: Option<Selection>, rate: int, text: string) returns (o: KeyOutcome)
      ensures IsModified(e) ==> o == KeyOutcome(NoRequest, false)
      ensures !IsModified(e) && (ImeKeyDown(e) || composing) ==> o == KeyOutcome(NoRequest, false)
      ensures Dispatched(e) && IsErase(e) && SelectionInEditor(sel) ==>
        o == KeyOutcome(DeleteSnippet(text, sel.value.startOffset, sel.value.length), true)
      ensures Dispatched(e) && IsErase(e) && !SelectionInEditor(sel) ==>
        o == KeyOutcome(Reveal(-rate), true)
      ensures Dispatched(e) && !IsErase(e) && IsNavigation(e) ==> o == KeyOutcome(NoRequest, false)
      ensures Dispatched(e) && !IsErase(e) && !IsNavigation(e) ==> o == KeyOutcome(Reveal(rate), true)
      ensures o.preventDefault <==> o.request != NoRequest
      ensures o.request.Reveal? ==> o.request.n == rate || o.request.n == -rate
    {
      if e.metaKey || e.ctrlKey {
        return KeyOutcome(NoRequest, false);
      }
      if e.isComposing || e.nativeIsComposing || e.key == "Process" || composing {
        return KeyOutcome(NoRequest, false);
      }
      if e.key == "Backspace" || e.key == "Delete" {
        if sel.Some? && !sel.value.isCollapsed && sel.value.rangeCount > 0 {
          if sel.value.anchorInEditor {
            return KeyOutcome(DeleteSnippet(text, sel.value.startOffset, sel.value.length), true);
          }
        }
        return KeyOutcome(Reveal(-rate), true);
      }
      if e.key in NAV_KEYS {
        return KeyOutcome(NoRequest, false);
      }
      return KeyOutcome(Reveal(rate), true);
    }

    /** `onCompositionStart`: from here on key events are suppressed. */
    method OnCompositionStart()
      modifies this
      ensures composing
    {
      composing := true;
    }

    /** `onCompositionEnd`: clears the flag and asks for one advance. */
    method OnCompositionEnd(rate: int) returns (r: Request)
      modifies this
      ensures !composing
      ensures r == Reveal(rate)
    {
      composing := false;
      r := Reveal(rate);
    }
  }

  /** An input-method session as the browser delivers it: composition start,
      any number of key events, composition end. Whatever keys arrive in
      between, the only transition requested is a single advance. */
  method ImeSession(ed: EditorSurface, keys: seq<KeyEvent>, sels: seq<Option<Selection>>, rate: int, text: string)
    returns (requests: seq<Request>)
    requires |sels| == |keys|
    modifies ed
    ensures !ed.composing
    ensures requests == [Reveal(rate)]
  {
    ed.OnCompositionStart();
    requests := [];
    var i := 0;
    while i < |keys|
      invariant 0 <= i <= |keys|
      invariant ed.composing
      invariant requests == []
    {
      var o := ed.OnKeyDown(keys[i], sels[i], rate, text);
      if o.request != NoRequest {
        requests := requests + [o.request];
      }
      i := i + 1;
    }
    var last := ed.OnCompositionEnd(rate);
    requests := requests + [last];
  }

  /** `onBeforeInput`: whether the event is cancelled. An event type starting
      with `insert` or `delete` is; everything else, and a missing type,
      passes through. */
  function CancelsBeforeInput(inputType: Option<string>): (cancel: bool)
    ensures cancel <==>
      (inputType.Some? &&
       exists rest :: inputType.value == "insert" + rest || inputType.value == "delete" + rest)
  {
    if inputType.Some? && inputType.value != "" then
      var t := inputType.value;
      if StartsWith(t, "insert") then
        assert t == "insert" + t[6..];
        true
      else if StartsWith(t, "delete") then
        assert t == "delete" + t[6..];
        true
      else
        false
    else
      false
  }

  /** `revealIndex`: the active document's offset, or 0 with no active
      document or no recorded offset. */
  function RevealIndex(docId: Option<string>, progressByDoc: map<string, int>): (k: int)
    ensures !IsSet(docId) ==> k == 0
    ensures IsSet(docId) && docId.value !in progressByDoc ==> k == 0
    ensures IsSet(docId) && docId.value in progressByDoc ==> k == progressByDoc[docId.value]
  {
    if IsSet(docId) then Store.Offset(progressByDoc, docId.value) else 0
  }

  /** `visible`: the rendered part of the text, `text.slice(0, revealIndex)`. */
  function Visible(text: string, docId: Option<string>, progressByDoc: map<string, int>): (v: string)
    ensures v <= text
    ensures 0 <= RevealIndex(docId, progressByDoc) ==> |v| == Min(RevealIndex(docId, progressByDoc), |text|)
  {
    SliceTo(text, RevealIndex(docId, progressByDoc))
  }

  /** With offsets as the store keeps them, what is rendered is a prefix of
      the text, as long as the offset allows and no longer than the text. */
  lemma VisibleIsPrefix(text: string, docId: Option<string>, progressByDoc: map<string, int>)
    requires forall id :: id in progressByDoc ==> 0 <= progressByDoc[id]
    ensures Visible(text, docId, progressByDoc) <= text
    ensures |Visible(text, docId, progressByDoc)| == Min(RevealIndex(docId, progressByDoc), |text|)
  {
  }

  /** The same for the store as its actions keep it: whatever the store holds,
      the editor shows a prefix of the text of the length the offset asks for,
      cut to the text. */
  lemma RenderedTextIsPrefix(store: Store.DocStore, text: string)
    requires store.Valid()
    ensures Visible(text, store.docId, store.progressByDoc) <= text
    ensures |Visible(text, store.docId, store.progressByDoc)| ==
      Min(RevealIndex(store.docId, store.progressByDoc), |text|)
  {
    VisibleIsPrefix(text, store.docId, store.progressByDoc);
  }

  /** An advance only adds to what was rendered: the old visible text is a
      prefix of the new one, which is at most `k` characters longer. A
      retreat only hides: the new visible text is a prefix of the old one. */
  lemma RevealKeepsVisiblePrefix(text: string, prev: int, k: int)
    requires 0 <= prev <= Store.MAX_SAFE_INTEGER
    requires 0 <= k
    ensures SliceTo(text, prev) <= SliceTo(text, Store.NextOffset(prev, k))
    ensures |SliceTo(text, Store.NextOffset(prev, k))| <= |SliceTo(text, prev)| + k
    ensures SliceTo(text, Store.NextOffset(prev, -k)) <= SliceTo(text, prev)
  {
    Store.RevealMonotone(prev, k);
  }
}
