/**
  The "rank assistant replies" page
  (website/src/pages/evaluate/rank_assistant_replies.tsx): a queue of tasks,
  the ranking the user is building, the requests the page sends, and what
  it renders. The task fetch and the update post are modelled by their
  success callbacks and by records of the requests made.
 */
module RankPage {
  import opened Strings

  /** A ranking task as the server sends it: its id, the replies to rank and the conversation before them. */
  datatype Task = Task(id: String, replies: seq<String>, messages: seq<String>)

  /** The body posted to `/api/update_task`. */
  datatype RankingContent = RankingContent(ranking: seq<int>)
  datatype TaskUpdate = TaskUpdate(id: String, updateType: String, content: RankingContent)

  const MessageRanking: String := "message_ranking"

  /** The update that submits `ranking` for `task`. */
  function RankingUpdate(task: Task, ranking: seq<int>): (r: TaskUpdate)
    ensures r.id == task.id && r.updateType == "message_ranking" && r.content.ranking == ranking
  {
    TaskUpdate(task.id, MessageRanking, RankingContent(ranking))
  }

  /** What the page renders. */
  datatype Screen = Loading | NoTasksFound | Ranking(replies: seq<String>, messages: seq<String>, tasks: seq<Task>)

  /** The spinner while the first fetch runs, a notice when there is no task, and otherwise the first task. */
  function Render(tasks: seq<Task>, isLoading: bool): (r: Screen)
    ensures isLoading ==> r == Loading
    ensures !isLoading ==> (r == NoTasksFound <==> |tasks| == 0)
    ensures !isLoading && |tasks| > 0 ==> r == Ranking(tasks[0].replies, tasks[0].messages, tasks)
    ensures r.Ranking? ==> |tasks| > 0 && r.replies == tasks[0].replies && r.messages == tasks[0].messages && r.tasks == tasks
  {
    if isLoading then Loading
    else if |tasks| == 0 then NoTasksFound
    else Ranking(tasks[0].replies, tasks[0].messages, tasks)
  }

  /** Appending a task leaves the ranked replies and their conversation as they were. */
  lemma AppendKeepsShownTask(tasks: seq<Task>, t: Task, isLoading: bool)
    requires |tasks| > 0
    ensures var before, after := Render(tasks, isLoading), Render(tasks + [t], isLoading);
            after.Ranking? == before.Ranking?
            && (after.Ranking? ==> after.replies == before.replies && after.messages == before.messages)
  {
    assert (tasks + [t])[0] == tasks[0];
  }

  /** Whatever was queued, a fetched task is the one shown. */
  lemma FetchedTaskIsShown(data: Task)
    ensures Render([data], false) == Ranking(data.replies, data.messages, [data])
  {
  }

  /** One mounted page: its two state variables and the requests it has made. */
  class RankAssistantReplies {
    var tasks: seq<Task>
    var ranking: seq<int>
    /** How many times the task fetch was (re)started with `mutate()`. */
    var fetchRequests: nat
    /** The update requests passed to `trigger`, oldest first. */
    var posted: seq<TaskUpdate>

    constructor ()
      ensures tasks == [] && ranking == [] && fetchRequests == 0 && posted == []
    {
      tasks := [];
      ranking := [];
      fetchRequests := 0;
      posted := [];
    }

    function Rendered(isLoading: bool): Screen
      reads this
    {
      Render(tasks, isLoading)
    }

    /** The `tasks` effect: an empty queue asks for a task. */
    method OnTasksChanged()
      modifies this`fetchRequests
      ensures fetchRequests == old(fetchRequests) + (if |tasks| == 0 then 1 else 0)
    {
      if |tasks| == 0 {
        fetchRequests := fetchRequests + 1;
      }
    }

    /** The fetch's `onSuccess`: the queue becomes exactly the fetched task. */
    method OnFetchSuccess(data: Task)
      modifies this`tasks
      ensures tasks == [data]
      ensures Rendered(false) == Ranking(data.replies, data.messages, [data])
    {
      tasks := [data];
    }

    /** The update's `onSuccess`: the task the server returns joins the end of the queue. */
    method OnUpdateSuccess(newTask: Task)
      modifies this`tasks
      ensures tasks == old(tasks) + [newTask]
      ensures |old(tasks)| > 0 ==> tasks[0] == old(tasks)[0]
    {
      tasks := tasks + [newTask];
    }

    /** `Sortable`'s `onChange`: the new order of the reply indices. */
    method SetRanking(newRanking: seq<int>)
      modifies this`ranking
      ensures ranking == newRanking
    {
      ranking := newRanking;
    }

    /** `submitResponse`: post the current ranking, verbatim, for `task`. */
    method SubmitResponse(task: Task)
      modifies this`posted
      ensures posted == old(posted) + [RankingUpdate(task, ranking)]
    {
      posted := posted + [TaskUpdate(task.id, MessageRanking, RankingContent(ranking))];
    }

    /** `fetchNextTask` (skip): clear the ranking, then fetch again. */
    method FetchNextTask()
      modifies this`ranking, this`fetchRequests
      ensures ranking == []
      ensures fetchRequests == old(fetchRequests) + 1
    {
      ranking := [];
      fetchRequests := fetchRequests + 1;
    }
  }
}
