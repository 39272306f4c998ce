/**
 * The "Go to Project" card button: fetch the card's assignment records from
 * the backend and open the project URL of the first one.
 */
module Navigation {
  import opened Common
  import opened Records
  import opened Http

  /** Why the button ends without opening a window. */
  datatype Failure =
    | RequestRejected(statusText: string)  // the task GET answered outside 2xx
    | NoTaskRecord                          // `task_data[0]` is undefined, reading a field of it throws

  datatype Outcome = OpenWindow(url: string) | Failed(failure: Failure)

  /** `task_data[0]['projectUrl']`. */
  function ProjectUrl(taskData: seq<Assignment>): (r: Outcome)
    ensures r.OpenWindow? <==> |taskData| > 0
    ensures r.OpenWindow? ==> r.url == taskData[0].projectUrl
    ensures r.Failed? ==> r.failure == NoTaskRecord
  {
    if |taskData| == 0 then Failed(NoTaskRecord) else OpenWindow(taskData[0].projectUrl)
  }

  /**
   * The whole button for card `cardId`: the request it sends, and what happens
   * given the response's status, status text and parsed body.
   */
  function GoToProject(cardId: string, status: int, statusText: string, taskData: seq<Assignment>)
    : (r: (Request, Outcome))
    ensures r.0 == TaskDataRequest(cardId)
    ensures r.1.OpenWindow? <==> 200 <= status < 300 && |taskData| > 0
    ensures r.1.OpenWindow? ==> r.1.url == taskData[0].projectUrl
    ensures !(200 <= status < 300) ==> r.1 == Failed(RequestRejected(statusText))
    ensures 200 <= status < 300 && taskData == [] ==> r.1 == Failed(NoTaskRecord)
  {
    var outcome :=
      match Settle(status, statusText, taskData)
      case Rejected(reason) => Failed(RequestRejected(reason))
      case Resolved(data) => ProjectUrl(data);
    (TaskDataRequest(cardId), outcome)
  }
}
