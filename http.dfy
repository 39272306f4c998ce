/**
 * The client's requests to its task backend: their method, URL and body, and
 * the rule that turns a finished response into a resolved or rejected promise.
 */
module Http {
  import opened Common
  import opened Records

  /** The backend's base URL, fixed in the client. */
  const AwsUrl: string := "https://3ltq8541yg.execute-api.us-west-1.amazonaws.com/dev"

  const TasksPrefix: string := AwsUrl + "/tasks/"
  const BoardsPrefix: string := AwsUrl + "/boards/"

  datatype Verb = Get | Post

  /** One request as the client opens it: verb, URL, headers and JSON body. */
  datatype Request = Request(
    verb: Verb,
    url: string,
    headers: seq<(string, string)>,
    body: Option<Assignment>)

  /** How a request's promise settles. */
  datatype Settled<+T> = Resolved(value: T) | Rejected(reason: string)

  /** The status rule every request of the client applies. */
  predicate Accepted(status: int)
  {
    200 <= status && status < 300
  }

  /**
   * The `onload` handler: the promise resolves with `payload` exactly when the
   * status is 2xx and otherwise rejects with the status text.
   */
  function Settle<T>(status: int, statusText: string, payload: T): (r: Settled<T>)
    ensures r.Resolved? <==> 200 <= status < 300
    ensures r.Resolved? ==> r.value == payload
    ensures r.Rejected? ==> r.reason == statusText
  {
    if Accepted(status) then Resolved(payload) else Rejected(statusText)
  }

  /** The assignment post resolves with the fixed word "done", never with the response. */
  function SetTaskSettled(status: int, statusText: string): (r: Settled<string>)
    ensures r == Resolved("done") <==> 200 <= status < 300
    ensures !(200 <= status < 300) ==> r == Rejected(statusText)
  {
    Settle(status, statusText, "done")
  }

  /** `getTaskData(taskId)`: GET of the task's assignment records. */
  function TaskDataRequest(taskId: string): (r: Request)
    ensures r.verb == Get && r.headers == [] && r.body == None
    ensures StripPrefix(r.url, TasksPrefix) == Some(taskId)
  {
    StripPrefixOfConcat(TasksPrefix, taskId);
    Request(Get, TasksPrefix + taskId, [], None)
  }

  /** `getBoardData(boardId)`: GET of a board's task data. */
  function BoardDataRequest(boardId: string): (r: Request)
    ensures r.verb == Get && r.headers == [] && r.body == None
    ensures StripPrefix(r.url, BoardsPrefix) == Some(boardId)
  {
    StripPrefixOfConcat(BoardsPrefix, boardId);
    Request(Get, BoardsPrefix + boardId, [], None)
  }

  /** `setTaskData(...)`: POST of the six-field assignment record as JSON. */
  function SetTaskRequest(record: Assignment): (r: Request)
    ensures r.verb == Post && r.url == AwsUrl + "/tasks"
    ensures r.headers == [("Content-type", "application/json")]
    ensures r.body == Some(record)
  {
    Request(Post, AwsUrl + "/tasks", [("Content-type", "application/json")], Some(record))
  }

  /** `updateProjectChecklists`: GET that asks the backend to refresh checklists. */
  function UpdateRequest(): (r: Request)
    ensures r.verb == Get && r.url == AwsUrl + "/update" && r.headers == [] && r.body == None
  {
    Request(Get, AwsUrl + "/update", [], None)
  }

  /** Distinct task ids give distinct task URLs. */
  lemma TaskDataRequestInjective(a: string, b: string)
    requires TaskDataRequest(a).url == TaskDataRequest(b).url
    ensures a == b
  {
  }

  /** A task URL is never a board URL, whatever the two ids are. */
  lemma TaskAndBoardUrlsDiffer(taskId: string, boardId: string)
    ensures TaskDataRequest(taskId).url != BoardDataRequest(boardId).url
  {
    var k := |AwsUrl| + 1;
    assert TaskDataRequest(taskId).url[k] == TasksPrefix[k] == 't';
    assert BoardDataRequest(boardId).url[k] == BoardsPrefix[k] == 'b';
  }
}
