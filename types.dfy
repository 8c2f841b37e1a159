/** Values shared by every module of the model. */
module Types {

  datatype Option<T> = None | Some(value: T)

  /** The text of a chat message. */
  type Text = string

  /** A chat room identifier, as carried by an incoming message. */
  type Room = string

  /** A user identifier. The script stores the impersonated user's id in a
      variable that also holds `false` and tests it for truthiness, so an id
      is taken to be a non-empty string. */
  type UserId = s: string | s != "" witness "1"

  /** A user record as the chat host's user directory returns it. */
  datatype User = User(id: UserId, name: string)
}
