/** Names shared by the concurrent parts of the model. */
module Threads {

  /** Any number of client threads, and one pump thread a channel. */
  datatype Tid = Client(id: nat) | Pump(channel: nat)

  datatype Option<+T> = None | Some(value: T)
}
