/** Names shared by every module of the model. */
module Common {

  /** A value that JavaScript may leave `undefined`. */
  datatype Option<+T> = None | Some(value: T)

  /** The id socket.io gives one connection (`socket.id`). */
  type SocketId = string

  /** The caller-supplied identity carried in `join-room` (`emailId`). */
  type Email = string

  /** A room name, as passed to `socket.join`. */
  type Room = string

  /** A client value that is relayed without being looked at, in its serialised JSON form. */
  type Data = string

  /** The key of one chat history (`userId`). */
  type UserId = string

  /** JavaScript truthiness of a string: only the empty string is falsy. */
  predicate Truthy(s: string)
  {
    s != ""
  }
}
