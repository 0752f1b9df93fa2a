/**
  The draft viewer (website/src/components/Chat/ChatAssistantDraftViewer.tsx):
  two aggregate flags over the streamed drafts and the draft messages, and
  the index of the one expanded draft.
 */
module DraftViewer {
  import opened Wrappers
  import opened Strings
  import opened Collections

  /** A draft message: its state and, once finished, its work parameters. */
  datatype DraftMessage = DraftMessage(state: String, workParameters: Option<String>)

  /** The message states after which a draft no longer changes. */
  predicate IsTerminal(state: String) {
    state in ["complete", "aborted_by_worker", "cancelled", "timeout"]
  }

  /** `streamedDrafts.every(message => message === "")`: true for no drafts. */
  function AllEmpty(streamedDrafts: seq<String>): (r: bool)
    ensures r <==> forall k :: 0 <= k < |streamedDrafts| ==> streamedDrafts[k] == []
  {
    All(streamedDrafts, (m: String) => m == [])
  }

  /** `draftMessages && draftMessages.every(...)`: a `null` list is not complete, an empty one is. */
  function AllComplete(draftMessages: Option<seq<DraftMessage>>): (r: bool)
    ensures r <==> draftMessages.Some? && forall k :: 0 <= k < |draftMessages.value| ==> IsTerminal(draftMessages.value[k].state)
  {
    draftMessages.Some? && All(draftMessages.value, (m: DraftMessage) => IsTerminal(m.state))
  }

  /** `handleToggleExpand`: collapse the expanded draft, or expand another one. */
  function Toggle(expanded: int, index: nat): (r: int)
    ensures r == -1 <==> expanded == index
    ensures r != -1 ==> r == index
  {
    if index == expanded then -1 else index
  }

  /**
    Toggling the same draft twice restores the state when that draft was
    expanded or none was; when another draft was expanded, all end collapsed.
   */
  lemma ToggleTwice(expanded: int, index: nat)
    ensures Toggle(Toggle(expanded, index), index) == if expanded == index || expanded == -1 then expanded else -1
  {
  }

  /** Draft `index` of `n` is followed by a divider unless it is the last one. */
  predicate HasDivider(index: nat, n: nat) {
    index != n - 1
  }

  /** The number of dividers among the first `k` of `n` drafts. */
  function DividersBefore(n: nat, k: nat): nat
    requires k <= n
  {
    if k == 0 then 0 else DividersBefore(n, k - 1) + (if HasDivider(k - 1, n) then 1 else 0)
  }

  lemma {:induction false} DividersBeforeLast(n: nat, k: nat)
    requires k < n
    ensures DividersBefore(n, k) == k
  {
    if k > 0 {
      DividersBeforeLast(n, k - 1);
    }
  }

  /** `n` drafts are separated by `n - 1` dividers. */
  lemma DividerCount(n: nat)
    ensures DividersBefore(n, n) == if n == 0 then 0 else n - 1
  {
    if n > 0 {
      DividersBeforeLast(n, n - 1);
    }
  }

  /** The work parameters of the first draft are shown once every draft is finished and the spinner is gone. */
  function ShowsWorkParameters(isLoading: bool, isComplete: bool, draftMessages: Option<seq<DraftMessage>>): (r: bool)
    ensures r <==> !isLoading && isComplete && draftMessages.Some? && |draftMessages.value| > 0
                   && draftMessages.value[0].workParameters.Some?
  {
    !isLoading && isComplete && draftMessages.Some? && |draftMessages.value| > 0 && draftMessages.value[0].workParameters.Some?
  }

  /**
    With `isComplete` computed by the completion effect, the parameters show
    exactly when nothing is loading, there is a first draft with parameters,
    and every draft has ended.
   */
  lemma WorkParametersNeedFinishedDrafts(isLoading: bool, draftMessages: Option<seq<DraftMessage>>)
    ensures ShowsWorkParameters(isLoading, AllComplete(draftMessages), draftMessages) <==>
              && !isLoading && draftMessages.Some? && |draftMessages.value| > 0
              && draftMessages.value[0].workParameters.Some?
              && forall k :: 0 <= k < |draftMessages.value| ==> IsTerminal(draftMessages.value[k].state)
  {
  }

  /** A finished first draft with parameters stays hidden while a later draft still streams. */
  lemma StreamingDraftHidesParameters()
    ensures !ShowsWorkParameters(false, AllComplete(Some([DraftMessage("complete", Some("params")), DraftMessage("streaming", None)])),
                                 Some([DraftMessage("complete", Some("params")), DraftMessage("streaming", None)]))
    ensures ShowsWorkParameters(false, AllComplete(Some([DraftMessage("complete", Some("params")), DraftMessage("timeout", None)])),
                                Some([DraftMessage("complete", Some("params")), DraftMessage("timeout", None)]))
  {
    var ms := [DraftMessage("complete", Some("params")), DraftMessage("streaming", None)];
    assert !IsTerminal(ms[1].state) by {
      assert "streaming" != "complete" && "streaming" != "aborted_by_worker";
      assert "streaming" != "cancelled" && "streaming" != "timeout";
    }
    var done := [DraftMessage("complete", Some("params")), DraftMessage("timeout", None)];
    assert IsTerminal(done[0].state) && IsTerminal(done[1].state);
  }

  /** Four drafts that all ended, each in a different way, are complete. */
  lemma FinishedDraftsAreComplete()
    ensures AllComplete(Some([DraftMessage("complete", None), DraftMessage("timeout", None),
                              DraftMessage("cancelled", None), DraftMessage("aborted_by_worker", None)]))
  {
    var ms := [DraftMessage("complete", None), DraftMessage("timeout", None),
               DraftMessage("cancelled", None), DraftMessage("aborted_by_worker", None)];
    assert IsTerminal(ms[0].state) && IsTerminal(ms[1].state) && IsTerminal(ms[2].state) && IsTerminal(ms[3].state);
  }

  /** A draft still streaming keeps the set incomplete. */
  lemma StreamingDraftIsIncomplete()
    ensures !AllComplete(Some([DraftMessage("complete", None), DraftMessage("streaming", None)]))
  {
    var ms := [DraftMessage("complete", None), DraftMessage("streaming", None)];
    assert !IsTerminal(ms[1].state) by {
      assert "streaming" != "complete" && "streaming" != "aborted_by_worker";
      assert "streaming" != "cancelled" && "streaming" != "timeout";
    }
  }

  /** One mounted viewer: its props and its three state variables. */
  class Viewer {
    var streamedDrafts: seq<String>
    var draftMessages: Option<seq<DraftMessage>>
    var isLoading: bool
    var isComplete: bool
    var expandedMessage: int

    /** Whether the work parameters of the first draft are on screen. */
    function WorkParametersShown(): bool
      reads this
    {
      ShowsWorkParameters(isLoading, isComplete, draftMessages)
    }

    /** The first render, before any effect has run. */
    constructor (streamedDrafts: seq<String>, draftMessages: Option<seq<DraftMessage>>)
      ensures this.streamedDrafts == streamedDrafts && this.draftMessages == draftMessages
      ensures !isLoading && !isComplete && expandedMessage == 0
      ensures !WorkParametersShown()
    {
      this.streamedDrafts := streamedDrafts;
      this.draftMessages := draftMessages;
      isLoading := false;
      isComplete := false;
      expandedMessage := 0;
    }

    /** New streamed drafts arrive and the loading effect recomputes `isLoading`. */
    method OnStreamedDrafts(drafts: seq<String>)
      modifies this`streamedDrafts, this`isLoading
      ensures streamedDrafts == drafts
      ensures isLoading <==> forall k :: 0 <= k < |drafts| ==> drafts[k] == []
      ensures isLoading ==> !WorkParametersShown()
    {
      streamedDrafts := drafts;
      isLoading := AllEmpty(drafts);
    }

    /** New draft messages arrive and the completion effect recomputes `isComplete`. */
    method OnDraftMessages(messages: Option<seq<DraftMessage>>)
      modifies this`draftMessages, this`isComplete
      ensures draftMessages == messages
      ensures isComplete == AllComplete(messages)
      ensures WorkParametersShown() ==> messages.Some? && forall k :: 0 <= k < |messages.value| ==> IsTerminal(messages.value[k].state)
      ensures messages.Some? && (exists k :: 0 <= k < |messages.value| && !IsTerminal(messages.value[k].state)) ==> !WorkParametersShown()
      ensures WorkParametersShown() <==> ShowsWorkParameters(isLoading, AllComplete(messages), messages)
    {
      draftMessages := messages;
      isComplete := AllComplete(messages);
    }

    /** The "Show More" / "Show Less" button of draft `index`. */
    method ToggleExpand(index: nat)
      modifies this`expandedMessage
      ensures expandedMessage == Toggle(old(expandedMessage), index)
      ensures expandedMessage == index <==> old(expandedMessage) != index
    {
      expandedMessage := if index == expandedMessage then -1 else index;
    }
  }
}
