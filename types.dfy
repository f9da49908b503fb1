/** Entities shared by the session and the dialogue context builder. */
module Types {

  /** One octet of a recording or of synthesized speech. */
  newtype byte = x: int | 0 <= x < 256

  /** Raw audio bytes, compared byte for byte. */
  type Audio = seq<byte>

  /** The role strings stored in `chat_history` entries. */
  const UserRole: string := "USER"
  const BotRole: string := "CHATBOT"

  /** One entry of `chat_history`: a dictionary with "role" and "message". */
  datatype Turn = Turn(role: string, message: string)

  /** Every turn the pipeline appends has one of the two roles and a non-empty message. */
  predicate WellFormedLog(log: seq<Turn>)
  {
    forall i :: 0 <= i < |log| ==>
      (log[i].role == UserRole || log[i].role == BotRole) && log[i].message != ""
  }
}
