/**
 * The database tables the consumer uses: the `User` table, reduced to the set
 * of usernames (usernames are unique), and the `Message` table, an
 * append-only sequence of records.
 */
module Store {

  /** One row of the `Message` table; the timestamp the database adds is not modelled. */
  datatype Message = Message(sender: string, receiver: string, content: string)

  class Database {
    var users: set<string>
    var messages: seq<Message>
    /** Whether a write to the `Message` table succeeds; when false, `create` raises. */
    var available: bool

    constructor (users: set<string>)
      ensures this.users == users && messages == [] && available
    {
      this.users := users;
      messages := [];
      available := true;
    }
  }
}
