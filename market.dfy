/** The marketplace records the pages receive from the backend, reduced to the
    fields the pages decide on. */
module Market {

  const Pending := "pending"
  const Completed := "completed"

  /** A task: its id, its status and the URL of its payment proof ("" when none). */
  datatype Task = Task(id: string, title: string, status: string, paymentProofUrl: string)

  /** A favourite entry: the favourited task's id (`fav.taskId._id`) and title. */
  datatype Favorite = Favorite(taskId: string, title: string)

  /** One conversation of the message history: the task it is about, the other
      participant's id, the unread count and the task's status. */
  datatype Conversation = Conversation(taskId: string, otherUserId: string, unreadCount: int, taskStatus: string)

  /** A chat message: its sender's and receiver's ids and its content. */
  datatype Message = Message(senderId: string, receiverId: string, content: string)
}
