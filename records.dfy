/** The records the client exchanges with its backend and hands to the host. */
module Records {

  /**
   * A card's binding to a project, as the backend stores it and as the
   * client posts it: exactly these six fields and no others.
   */
  datatype Assignment = Assignment(
    taskId: string,
    taskUrl: string,
    projectId: string,
    projectUrl: string,
    projectName: string,
    boardId: string)

  /**
   * The click handler attached to a badge or a popup item. The handlers are
   * closures in the client; the model keeps only which one is attached and,
   * for a popup item, the record it would post.
   */
  datatype Callback =
    | CardButtonCallback
    | PostAssignment(record: Assignment)
}
