/**
  The command-line export of message trees (backend/export.py): checking the
  arguments, resolving the state and deleted filters, selecting messages
  through a chain of optional filters, and assembling the exported trees.
  The database is a value that holds the tree-state rows and the message
  rows. Building a tree from its messages is a parameter.
 */
module Export {
  import opened Wrappers
  import opened Strings
  import opened Collections
  import opened Uuids

  /** The states a message tree can be in, as `--state` names them. */
  datatype TreeState = PromptLotteryWaiting | Growing | ReadyForExport | AbortedLowGrade | HaltedByModerator | BacklogRanking

  function StateName(t: TreeState): String {
    match t
    case PromptLotteryWaiting => "prompt_lottery_waiting"
    case Growing => "growing"
    case ReadyForExport => "ready_for_export"
    case AbortedLowGrade => "aborted_low_grade"
    case HaltedByModerator => "halted_by_moderator"
    case BacklogRanking => "backlog_ranking"
  }

  /** `TreeState(value)`: the state with that name, or `None` where the enum raises `ValueError`. */
  function ParseTreeState(s: String): (r: Option<TreeState>)
    ensures r.Some? ==> StateName(r.value) == s
    ensures r.None? ==> forall t: TreeState :: StateName(t) != s
  {
    if s == "prompt_lottery_waiting" then Some(PromptLotteryWaiting)
    else if s == "growing" then Some(Growing)
    else if s == "ready_for_export" then Some(ReadyForExport)
    else if s == "aborted_low_grade" then Some(AbortedLowGrade)
    else if s == "halted_by_moderator" then Some(HaltedByModerator)
    else if s == "backlog_ranking" then Some(BacklogRanking)
    else None
  }

  /** Every state name parses back to its state; `all` names none of them. */
  lemma ParseStateName(t: TreeState)
    ensures ParseTreeState(StateName(t)) == Some(t)
    ensures ParseTreeState("all").None?
  {
    assert StateName(t) != "all";
  }

  /** A row of the message-tree-state table. */
  datatype TreeRow = TreeRow(messageTreeId: Uuid, state: TreeState)

  /** A message row, with just the columns the export filters on. */
  datatype Message = Message(id: Uuid, messageTreeId: Uuid, userId: Uuid, parentId: Option<Uuid>, deleted: bool)

  /** The two tables the export reads, each in the order the database returns it. */
  datatype Db = Db(trees: seq<TreeRow>, messages: seq<Message>)

  /** `ValueError` raised by the argument check, by `TreeState(...)` and by `UUID(...)`. */
  datatype ExportError = ValueError(message: String) | UnknownState(state: String) | BadUserId(user: String)

  const StateWithUserMessage: String := "Cannot use --state when specifying a user ID"

  /** `fetch_tree_ids`: the trees, restricted to one state when a state filter is given. */
  function FetchTreeIds(trees: seq<TreeRow>, stateFilter: Option<TreeState>): (r: seq<TreeRow>)
    ensures forall row :: row in r <==> row in trees && (stateFilter.Some? ==> row.state == stateFilter.value)
  {
    if stateFilter.Some? then Filter(trees, (row: TreeRow) => row.state == stateFilter.value) else trees
  }

  /** The four optional filters of `fetch_tree_messages`, each as a test on one message. */
  function InTree(treeId: Option<Uuid>): Message -> bool {
    (m: Message) => treeId.None? || m.messageTreeId == treeId.value
  }

  function ByUser(userId: Option<Uuid>): Message -> bool {
    (m: Message) => userId.None? || m.userId == userId.value
  }

  function WithDeleted(deleted: Option<bool>): Message -> bool {
    (m: Message) => deleted.None? || m.deleted == deleted.value
  }

  function RootOnly(promptsOnly: bool): Message -> bool {
    (m: Message) => !promptsOnly || m.parentId.None?
  }

  /** A message passes every filter whose argument is set. */
  predicate Selected(m: Message, treeId: Option<Uuid>, userId: Option<Uuid>, deleted: Option<bool>, promptsOnly: bool) {
    && (treeId.Some? ==> m.messageTreeId == treeId.value)
    && (userId.Some? ==> m.userId == userId.value)
    && (deleted.Some? ==> m.deleted == deleted.value)
    && (promptsOnly ==> m.parentId.None?)
  }

  /** `fetch_tree_messages`: each filter is added to the query only when its argument is set. */
  function FetchTreeMessages(messages: seq<Message>, treeId: Option<Uuid>, userId: Option<Uuid>,
                             deleted: Option<bool>, promptsOnly: bool): seq<Message>
  {
    var byTree := if treeId.Some? then Filter(messages, InTree(treeId)) else messages;
    var byUser := if userId.Some? then Filter(byTree, ByUser(userId)) else byTree;
    var byDeleted := if deleted.Some? then Filter(byUser, WithDeleted(deleted)) else byUser;
    if promptsOnly then Filter(byDeleted, RootOnly(promptsOnly)) else byDeleted
  }

  /** A filter that is left out when its argument is unset is one every message passes. */
  lemma FilterWhen<T>(s: seq<T>, c: bool, p: T -> bool)
    requires !c ==> forall x :: p(x)
    ensures (if c then Filter(s, p) else s) == Filter(s, p)
  {
    if !c {
      FilterKeepsAll(s, p);
    }
  }

  /**
    The chain of filters is one filter by `Selected`: the result holds exactly
    the selected messages, in database order, each as often as it occurs there.
   */
  lemma FetchIsOneFilter(messages: seq<Message>, treeId: Option<Uuid>, userId: Option<Uuid>,
                         deleted: Option<bool>, promptsOnly: bool)
    ensures FetchTreeMessages(messages, treeId, userId, deleted, promptsOnly)
            == Filter(messages, (m: Message) => Selected(m, treeId, userId, deleted, promptsOnly))
  {
    var t, u, d, p := InTree(treeId), ByUser(userId), WithDeleted(deleted), RootOnly(promptsOnly);
    var tu := (m: Message) => Selected(m, treeId, userId, None, false);
    var tud := (m: Message) => Selected(m, treeId, userId, deleted, false);
    var all := (m: Message) => Selected(m, treeId, userId, deleted, promptsOnly);
    var byTree := if treeId.Some? then Filter(messages, t) else messages;
    var byUser := if userId.Some? then Filter(byTree, u) else byTree;
    var byDeleted := if deleted.Some? then Filter(byUser, d) else byUser;
    var r := if promptsOnly then Filter(byDeleted, p) else byDeleted;
    assert r == FetchTreeMessages(messages, treeId, userId, deleted, promptsOnly);
    assert byTree == Filter(messages, t) by {
      FilterWhen(messages, treeId.Some?, t);
    }
    assert byUser == Filter(messages, tu) by {
      FilterWhen(byTree, userId.Some?, u);
      FilterFilter(messages, t, u, tu);
    }
    assert byDeleted == Filter(messages, tud) by {
      FilterWhen(byUser, deleted.Some?, d);
      FilterFilter(messages, tu, d, tud);
    }
    assert r == Filter(messages, all) by {
      FilterWhen(byDeleted, promptsOnly, p);
      FilterFilter(messages, tud, p, all);
    }
  }

  /** `fetch_tree_messages` returns exactly the messages that pass every filter whose argument is set. */
  lemma FetchTreeMessagesSelects(messages: seq<Message>, treeId: Option<Uuid>, userId: Option<Uuid>,
                                 deleted: Option<bool>, promptsOnly: bool)
    ensures forall m :: m in FetchTreeMessages(messages, treeId, userId, deleted, promptsOnly)
                        <==> m in messages && Selected(m, treeId, userId, deleted, promptsOnly)
  {
    FetchIsOneFilter(messages, treeId, userId, deleted, promptsOnly);
  }

  /** A message node of an exported tree; `replies` is `None` once pruned. */
  datatype ExportNode = ExportNode(messageId: Uuid, replies: Option<seq<ExportNode>>)

  datatype ExportTree = ExportTree(messageTreeId: Uuid, treeState: TreeState, prompt: ExportNode)

  /** What is written: the bare messages of one user, or one tree per selected tree row. */
  datatype ExportOutput =
    | MessagesFile(file: Option<String>, messages: seq<Message>, compressed: bool)
    | TreesFile(file: Option<String>, trees: seq<ExportTree>, compressed: bool)

  /** The `prompts_only` step (`t.prompt.replies = None`): the prompt keeps its identity and loses its replies. */
  function Pruned(t: ExportTree, promptsOnly: bool): (r: ExportTree)
    ensures r.messageTreeId == t.messageTreeId && r.treeState == t.treeState && r.prompt.messageId == t.prompt.messageId
    ensures promptsOnly ==> r.prompt.replies.None?
    ensures !promptsOnly ==> r == t
  {
    if promptsOnly then t.(prompt := t.prompt.(replies := None)) else t
  }

  /** The tree exported for one tree row: built from that tree's selected messages, then pruned. */
  function TreeExport(messages: seq<Message>, build: (Uuid, TreeState, seq<Message>) -> ExportTree, row: TreeRow,
                      deleted: Option<bool>, promptsOnly: bool): ExportTree
  {
    Pruned(build(row.messageTreeId, row.state, FetchTreeMessages(messages, Some(row.messageTreeId), None, deleted, promptsOnly)),
           promptsOnly)
  }

  /** Every message handed to `build` for a tree row belongs to that tree and passes the deleted and prompt filters. */
  lemma TreeMessagesBelongToTree(messages: seq<Message>, row: TreeRow, deleted: Option<bool>, promptsOnly: bool, m: Message)
    requires m in FetchTreeMessages(messages, Some(row.messageTreeId), None, deleted, promptsOnly)
    ensures m in messages && m.messageTreeId == row.messageTreeId
    ensures deleted.Some? ==> m.deleted == deleted.value
    ensures promptsOnly ==> m.parentId.None?
  {
    FetchTreeMessagesSelects(messages, Some(row.messageTreeId), None, deleted, promptsOnly);
  }

  /**
    The loop of `export_trees` over the tree rows zipped with their fetched
    messages: build each tree, prune it, and append it.
   */
  method BuildTrees(rows: seq<TreeRow>, messageTrees: seq<seq<Message>>, promptsOnly: bool,
                    build: (Uuid, TreeState, seq<Message>) -> ExportTree)
    returns (trees: seq<ExportTree>)
    requires |messageTrees| == |rows|
    ensures |trees| == |rows|
    ensures forall k :: 0 <= k < |rows| ==>
              trees[k] == Pruned(build(rows[k].messageTreeId, rows[k].state, messageTrees[k]), promptsOnly)
  {
    trees := [];
    var k := 0;
    while k < |rows|
      invariant 0 <= k <= |rows|
      invariant |trees| == k
      invariant forall j :: 0 <= j < k ==>
                  trees[j] == Pruned(build(rows[j].messageTreeId, rows[j].state, messageTrees[j]), promptsOnly)
    {
      var t := build(rows[k].messageTreeId, rows[k].state, messageTrees[k]);
      if promptsOnly {
        t := t.(prompt := t.prompt.(replies := None));
      }
      trees := trees + [t];
      k := k + 1;
    }
  }

  /** `trees` holds, in row order, the exported tree of each row. */
  predicate ExportsRows(trees: seq<ExportTree>, messages: seq<Message>, build: (Uuid, TreeState, seq<Message>) -> ExportTree,
                        rows: seq<TreeRow>, deleted: Option<bool>, promptsOnly: bool)
  {
    && |trees| == |rows|
    && forall k :: 0 <= k < |rows| ==> trees[k] == TreeExport(messages, build, rows[k], deleted, promptsOnly)
  }

  /**
    `export_trees`: with a user id, that user's messages are written as they
    are; otherwise one tree per selected tree row, in row order.
   */
  method ExportTrees(db: Db, exportFile: Option<String>, useCompression: bool, deleted: Option<bool>,
                     userId: Option<Uuid>, promptsOnly: bool, stateFilter: Option<TreeState>,
                     build: (Uuid, TreeState, seq<Message>) -> ExportTree)
    returns (out: ExportOutput)
    ensures userId.Some? ==>
              out == MessagesFile(exportFile, FetchTreeMessages(db.messages, None, userId, deleted, promptsOnly), useCompression)
    ensures userId.None? ==> out.TreesFile? && out.file == exportFile && out.compressed == useCompression
    ensures userId.None? ==> ExportsRows(out.trees, db.messages, build, FetchTreeIds(db.trees, stateFilter), deleted, promptsOnly)
  {
    if userId.Some? {
      var messages := FetchTreeMessages(db.messages, None, userId, deleted, promptsOnly);
      out := MessagesFile(exportFile, messages, useCompression);
    } else {
      var rows := FetchTreeIds(db.trees, stateFilter);
      var messageTrees := seq(|rows|, k requires 0 <= k < |rows| =>
                              FetchTreeMessages(db.messages, Some(rows[k].messageTreeId), None, deleted, promptsOnly));
      var trees := BuildTrees(rows, messageTrees, promptsOnly, build);
      out := TreesFile(exportFile, trees, useCompression);
    }
  }

  /** The state filter `main` derives from `--state`: absent means ready for export, `all` means no filter. */
  method ResolveStateFilter(state: Option<String>) returns (r: Result<Option<TreeState>, ExportError>)
    ensures state.None? ==> r == Ok(Some(ReadyForExport))
    ensures state == Some("all") ==> r == Ok(None)
    ensures state.Some? && state.value != "all" ==>
              r == (match ParseTreeState(state.value)
                    case Some(t) => Ok(Some(t))
                    case None => Err(UnknownState(state.value)))
    ensures r.Ok? && r.value.Some? ==> state.None? || StateName(r.value.value) == state.value
  {
    var stateFilter: Option<TreeState> := None;
    if state.None? {
      stateFilter := Some(ReadyForExport);
    } else if state.value != "all" {
      match ParseTreeState(state.value)
      case Some(t) =>
        stateFilter := Some(t);
      case None =>
        return Err(UnknownState(state.value));
    }
    return Ok(stateFilter);
  }

  /**
    The deleted filter `main` derives from the two flags: undeleted messages
    by default, every message with `--include-deleted`, and only deleted
    messages with `--deleted-only`, whatever the other flag says.
   */
  method ResolveDeleted(includeDeleted: bool, deletedOnly: bool) returns (deleted: Option<bool>)
    ensures deletedOnly ==> deleted == Some(true)
    ensures !deletedOnly && includeDeleted ==> deleted.None?
    ensures !deletedOnly && !includeDeleted ==> deleted == Some(false)
    ensures forall m: Message :: WithDeleted(deleted)(m) <==> (deletedOnly ==> m.deleted) && (!deletedOnly && !includeDeleted ==> !m.deleted)
  {
    deleted := Some(false);
    if includeDeleted {
      deleted := None;
    }
    if deletedOnly {
      deleted := Some(true);
    }
  }

  /** The parsed command line, which `validate_args` updates in place. */
  class ExportArgs {
    var exportFile: Option<String>
    var includeDeleted: bool
    var deletedOnly: bool
    var user: Option<String>
    var state: Option<String>
    var promptsOnly: bool
    var useCompression: bool

    constructor (exportFile: Option<String>, includeDeleted: bool, deletedOnly: bool, user: Option<String>,
                 state: Option<String>, promptsOnly: bool)
      ensures this.exportFile == exportFile && this.includeDeleted == includeDeleted && this.deletedOnly == deletedOnly
      ensures this.user == user && this.state == state && this.promptsOnly == promptsOnly
      ensures !useCompression
    {
      this.exportFile := exportFile;
      this.includeDeleted := includeDeleted;
      this.deletedOnly := deletedOnly;
      this.user := user;
      this.state := state;
      this.promptsOnly := promptsOnly;
      useCompression := false;
    }

    /**
      `validate_args`: `--deleted-only` turns on `--include-deleted`,
      compression follows a `.gz` in the file name, and a non-empty state
      together with a user is refused (after the two updates).
     */
    method ValidateArgs() returns (err: Option<ExportError>)
      modifies this`includeDeleted, this`useCompression
      ensures includeDeleted == (old(includeDeleted) || deletedOnly)
      ensures useCompression <==> exportFile.Some? && Contains(exportFile.value, ".gz")
      ensures err.Some? <==> state.Some? && state.value != [] && user.Some?
      ensures err.Some? ==> err.value == ValueError(StateWithUserMessage)
    {
      if deletedOnly {
        includeDeleted := true;
      }
      useCompression := exportFile.Some? && Contains(exportFile.value, ".gz");
      if state.Some? && state.value != [] && user.Some? {
        return Some(ValueError(StateWithUserMessage));
      }
      return None;
    }
  }

  /** The deleted filter as the flags stand after `validate_args`. */
  function DeletedFilter(includeDeleted: bool, deletedOnly: bool): Option<bool>
  {
    if deletedOnly then Some(true) else if includeDeleted then None else Some(false)
  }

  /** The state filter `main` derives from a `--state` that is absent, `all` or a known state name. */
  function RequestedStateFilter(state: Option<String>): Option<TreeState>
  {
    if state.None? then Some(ReadyForExport) else if state.value == "all" then None else ParseTreeState(state.value)
  }

  /** A `--state` that `TreeState(...)` refuses. */
  predicate UnknownStateName(state: Option<String>)
  {
    state.Some? && state.value != "all" && ParseTreeState(state.value).None?
  }

  /** A `--state` together with a `--user`, which `validate_args` refuses. */
  predicate StateWithUser(args: ExportArgs)
    reads args
  {
    args.state.Some? && args.state.value != [] && args.user.Some?
  }

  /**
    `main` once `validate_args` has passed: resolve the state filter and the
    deleted filter, parse the user id, and export. The first error raised
    ends the run.
   */
  method ExportValidated(db: Db, build: (Uuid, TreeState, seq<Message>) -> ExportTree, exportFile: Option<String>,
                         useCompression: bool, state: Option<String>, user: Option<String>, includeDeleted: bool,
                         deletedOnly: bool, promptsOnly: bool)
    returns (r: Result<ExportOutput, ExportError>)
    ensures UnknownStateName(state) ==> r == Err(UnknownState(state.value))
    ensures !UnknownStateName(state) && user.Some? && ParseUuid(user.value).None? ==> r == Err(BadUserId(user.value))
    ensures r.Err? <==> UnknownStateName(state) || (user.Some? && ParseUuid(user.value).None?)
    ensures r.Ok? ==> r.value.file == exportFile && r.value.compressed == useCompression
    ensures r.Ok? && user.None? ==>
              && r.value.TreesFile?
              && ExportsRows(r.value.trees, db.messages, build, FetchTreeIds(db.trees, RequestedStateFilter(state)),
                             DeletedFilter(includeDeleted, deletedOnly), promptsOnly)
    ensures r.Ok? && user.Some? ==>
              && r.value.MessagesFile?
              && ParseUuid(user.value).Some?
              && r.value.messages == FetchTreeMessages(db.messages, None, ParseUuid(user.value),
                                                       DeletedFilter(includeDeleted, deletedOnly), promptsOnly)
  {
    var stateFilter := ResolveStateFilter(state);
    if stateFilter.Err? {
      return Err(stateFilter.error);
    }
    var deleted := ResolveDeleted(includeDeleted, deletedOnly);
    var userId: Option<Uuid> := None;
    if user.Some? {
      match ParseUuid(user.value)
      case Some(u) =>
        userId := Some(u);
      case None =>
        return Err(BadUserId(user.value));
    }
    var out := ExportTrees(db, exportFile, useCompression, deleted, userId, promptsOnly, stateFilter.value, build);
    return Ok(out);
  }

  /** `main` after parsing: `validate_args`, then the export. The first error raised ends the run. */
  method Run(args: ExportArgs, db: Db, build: (Uuid, TreeState, seq<Message>) -> ExportTree)
    returns (r: Result<ExportOutput, ExportError>)
    modifies args`includeDeleted, args`useCompression
    ensures args.includeDeleted == (old(args.includeDeleted) || args.deletedOnly)
    ensures args.useCompression <==> args.exportFile.Some? && Contains(args.exportFile.value, ".gz")
    ensures StateWithUser(args) ==> r == Err(ValueError(StateWithUserMessage))
    ensures !StateWithUser(args) && UnknownStateName(args.state) ==> r == Err(UnknownState(args.state.value))
    ensures !StateWithUser(args) && !UnknownStateName(args.state) && args.user.Some? && ParseUuid(args.user.value).None? ==>
              r == Err(BadUserId(args.user.value))
    ensures r.Err? <==>
              StateWithUser(args) || UnknownStateName(args.state) || (args.user.Some? && ParseUuid(args.user.value).None?)
    ensures r.Ok? ==> r.value.file == args.exportFile && r.value.compressed == args.useCompression
    ensures r.Ok? && args.user.None? ==>
              && r.value.TreesFile?
              && ExportsRows(r.value.trees, db.messages, build, FetchTreeIds(db.trees, RequestedStateFilter(args.state)),
                             DeletedFilter(args.includeDeleted, args.deletedOnly), args.promptsOnly)
    ensures r.Ok? && args.user.Some? ==>
              && r.value.MessagesFile?
              && ParseUuid(args.user.value).Some?
              && r.value.messages == FetchTreeMessages(db.messages, None, ParseUuid(args.user.value), DeletedFilter(args.includeDeleted, args.deletedOnly), args.promptsOnly)
  {
    var err := args.ValidateArgs();
    if err.Some? {
      return Err(err.value);
    }
    r := ExportValidated(db, build, args.exportFile, args.useCompression, args.state, args.user, args.includeDeleted,
                         args.deletedOnly, args.promptsOnly);
  }
}
