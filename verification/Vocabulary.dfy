// The names, messages, references and envelopes that every part of the actor runtime shares.
module Vocabulary {
  datatype Option<+T> = None | Some(value: T)

  type Name = string
  type Endpoint = string
  type TypeName = string

  // Stands for Rust's TypeId: which message type a boxed message has.
  type TypeId = nat

  // A fast_send call, and with it the reply channel that the call created.
  type Token = nat

  // Start, Shutdown, Timeout and Reject come with the runtime; App is any message type of the user.
  datatype Message =
    | Start
    | Shutdown
    | Timeout(id: nat)
    | Reject(messageType: TypeName, reason: string, rejectedBy: Name)
    | App(typeId: TypeId, value: int)

  // A local reference holds the sending end of one channel, here `box`, and the name of the actor.
  datatype Ref =
    | Local(box: nat, name: Name)
    | Remote(name: Name, endpoint: Endpoint)
    | Cpp(name: Name)

  datatype Envelope = Envelope(msg: Message, sender: Option<Ref>, reply: Option<Token>)
}
