/**
 * The out-of-band notification rule: when the recipient has a Telegram id and
 * is logged out, the handler enqueues a job carrying a notice of the message.
 */
module Escalation {
  import opened Wrappers

  /** A job handed to the task queue: (telegram chat id, notice text). */
  datatype Job = Job(chatId: int, text: string)

  /**
   * Escalate when the recipient's Telegram id (None when the column is NULL
   * or there is no row) is present and non-zero, and the token column is
   * exactly 0 (logged out).
   */
  predicate ShouldEscalate(telegramId: Option<int>, token: Option<int>): (b: bool)
    ensures b <==> telegramId.Some? && telegramId.value != 0 && token == Some(0)
  {
    match telegramId
    case None => false
    case Some(id) => id != 0 && token == Some(0)
  }

  /** No channel, no escalation: a missing or zero Telegram id never escalates. */
  lemma NoChannelNoEscalation(token: Option<int>)
    ensures !ShouldEscalate(None, token) && !ShouldEscalate(Some(0), token)
  {
  }

  /** A recipient whose token is missing or non-zero (logged in) is never escalated to. */
  lemma PresentRecipientNoEscalation(telegramId: Option<int>, token: Option<int>)
    requires token != Some(0)
    ensures !ShouldEscalate(telegramId, token)
  {
  }

  const NoticeLead: string := "Вам пришло сообщение от "
  const NoticeMid: string := ". Сообщение:"

  /**
   * The notice 'Вам пришло сообщение от {user_name}. Сообщение:{message}':
   * it names the sender right after the fixed lead and ends with the message.
   */
  function Notice(userName: string, message: string): string {
    NoticeLead + userName + NoticeMid + message
  }

  /** The notice, position by position: the fixed lead, the sender's name, the fixed middle, the message. */
  lemma NoticeFormat(userName: string, message: string)
    ensures var r := Notice(userName, message);
            && |r| == |NoticeLead| + |userName| + |NoticeMid| + |message|
            && r[..|NoticeLead|] == NoticeLead
            && r[|NoticeLead|..|NoticeLead| + |userName|] == userName
            && r[|NoticeLead| + |userName|..|NoticeLead| + |userName| + |NoticeMid|] == NoticeMid
            && r[|r| - |message|..] == message
  {
  }

  /** The job the handler enqueues for one message, if any. */
  function EscalationJobs(telegramId: Option<int>, token: Option<int>,
                          userName: string, message: string): (jobs: seq<Job>)
    ensures |jobs| <= 1
    ensures |jobs| == 1 <==> ShouldEscalate(telegramId, token)
    ensures |jobs| == 1 ==> telegramId.Some? && jobs[0] == Job(telegramId.value, Notice(userName, message))
    ensures forall j :: j in jobs ==> j.chatId != 0
  {
    if ShouldEscalate(telegramId, token) then [Job(telegramId.value, Notice(userName, message))] else []
  }
}
