/**
 * The administrator's push mode (controllers/adminController.js): one flag,
 * off at start, switched by two commands and reported by a third; while it
 * is on, every other message of the administrator is forwarded to the target
 * user. Forwarding is a call into the messaging service: its outcome is a
 * parameter, and the model records which messages it was asked to forward.
 */
module Admin {
  import opened Strings

  const EnableCommand := "開啟Push模式"
  const DisableCommand := "關閉Push模式"
  const StatusCommand := "Push狀態"

  const EnabledText := "已開啟 Push 模式。您發送的所有消息將被轉發給目標用戶。"
  const DisabledText := "已關閉 Push 模式。"
  const ForwardedText := "已成功轉發消息給目標用戶。"
  const ForwardFailedText := "消息轉發失敗，請稍後再試。"

  /** The status report: 已開啟 or 已關閉 after the fixed prefix. */
  function StatusText(mode: bool): (t: string)
    ensures mode ==> t == "Push 模式目前已開啟"
    ensures !mode ==> t == "Push 模式目前已關閉"
  {
    "Push 模式目前" + (if mode then "已開啟" else "已關閉")
  }

  /** The report tells the two modes apart. */
  lemma StatusTells()
    ensures StatusText(true) != StatusText(false)
  {
    assert StatusText(true)[10] != StatusText(false)[10];
  }

  /** The sender is the administrator; with no administrator configured, nobody is. */
  predicate IsAdmin(adminId: Option<string>, userId: string)
  {
    adminId == Some(userId)
  }

  /** Whether the message is forwarded: an administrator's message that is not a command,
   *  while the mode is on. */
  predicate Forwards(adminId: Option<string>, mode: bool, msg: string, userId: string)
  {
    IsAdmin(adminId, userId) && msg != EnableCommand && msg != DisableCommand && msg != StatusCommand && mode
  }

  /** The text `handleAdminCommand` replies with; `None` is its `null`. `forwardOk` is the
   *  outcome of the forwarding call. */
  function CommandReply(adminId: Option<string>, mode: bool, msg: string, userId: string, forwardOk: bool)
    : Option<string>
  {
    if !IsAdmin(adminId, userId) then None
    else if msg == EnableCommand then Some(EnabledText)
    else if msg == DisableCommand then Some(DisabledText)
    else if msg == StatusCommand then Some(StatusText(mode))
    else if mode then Some(if forwardOk then ForwardedText else ForwardFailedText)
    else None
  }

  /** The mode after the message. */
  function NextMode(adminId: Option<string>, mode: bool, msg: string, userId: string): bool
  {
    if !IsAdmin(adminId, userId) then mode
    else if msg == EnableCommand then true
    else if msg == DisableCommand then false
    else mode
  }

  class AdminController {
    /** `ADMIN_USER_ID` from the environment, if set. */
    const adminId: Option<string>
    /** `adminPushModeEnabled`. */
    var pushMode: bool
    /** The messages handed to the forwarding call, in order. */
    var forwarded: seq<string>

    constructor (adminId: Option<string>)
      ensures this.adminId == adminId && !pushMode && forwarded == []
    {
      this.adminId := adminId;
      pushMode := false;
      forwarded := [];
    }

    /** `isAdminPushMode`. */
    function IsAdminPushMode(): bool
      reads this
    {
      pushMode
    }

    /** `toggleAdminPushMode(enabled)`: sets the flag and returns it. */
    method ToggleAdminPushMode(enabled: bool) returns (r: bool)
      modifies this
      ensures pushMode == enabled && r == enabled
      ensures forwarded == old(forwarded)
    {
      pushMode := enabled;
      r := pushMode;
    }

    /** `handleAdminCommand(userMessage, userId)`. */
    method HandleAdminCommand(userMessage: string, userId: string, forwardOk: bool) returns (reply: Option<string>)
      modifies this
      ensures reply == CommandReply(adminId, old(pushMode), userMessage, userId, forwardOk)
      ensures pushMode == NextMode(adminId, old(pushMode), userMessage, userId)
      ensures forwarded == old(forwarded) + (if Forwards(adminId, old(pushMode), userMessage, userId) then [userMessage] else [])
    {
      if adminId != Some(userId) {
        return None;
      }
      if userMessage == EnableCommand {
        var _ := ToggleAdminPushMode(true);
        return Some(EnabledText);
      } else if userMessage == DisableCommand {
        var _ := ToggleAdminPushMode(false);
        return Some(DisabledText);
      } else if userMessage == StatusCommand {
        return Some(StatusText(pushMode));
      } else if pushMode {
        forwarded := forwarded + [userMessage];
        if forwardOk {
          return Some(ForwardedText);
        }
        return Some(ForwardFailedText);
      }
      return None;
    }
  }

  // ---- properties of the state machine ----

  /** Anyone but the administrator gets no reply and changes nothing. */
  lemma NonAdminIgnored(adminId: Option<string>, mode: bool, msg: string, userId: string, ok: bool)
    requires !IsAdmin(adminId, userId)
    ensures CommandReply(adminId, mode, msg, userId, ok).None?
    ensures NextMode(adminId, mode, msg, userId) == mode
    ensures !Forwards(adminId, mode, msg, userId)
  {
  }

  /** The two switches set the mode whatever it was, with their fixed confirmations, and are
   *  never forwarded. */
  lemma Switches(adminId: Option<string>, mode: bool, userId: string, ok: bool)
    requires IsAdmin(adminId, userId)
    ensures NextMode(adminId, mode, EnableCommand, userId) && CommandReply(adminId, mode, EnableCommand, userId, ok) == Some(EnabledText)
    ensures !NextMode(adminId, mode, DisableCommand, userId) && CommandReply(adminId, mode, DisableCommand, userId, ok) == Some(DisabledText)
    ensures !Forwards(adminId, mode, EnableCommand, userId) && !Forwards(adminId, mode, DisableCommand, userId)
  {
  }

  /** The status command reports the mode and leaves it as it is. */
  lemma StatusReports(adminId: Option<string>, mode: bool, userId: string, ok: bool)
    requires IsAdmin(adminId, userId)
    ensures NextMode(adminId, mode, StatusCommand, userId) == mode
    ensures CommandReply(adminId, mode, StatusCommand, userId, ok) == Some(StatusText(mode))
  {
  }

  /** Any other message of the administrator: forwarded exactly while the mode is on, replied
   *  to with the outcome of the forwarding, and `None` while it is off; the mode stays. */
  lemma OtherMessages(adminId: Option<string>, mode: bool, msg: string, userId: string, ok: bool)
    requires IsAdmin(adminId, userId)
    requires msg != EnableCommand && msg != DisableCommand && msg != StatusCommand
    ensures NextMode(adminId, mode, msg, userId) == mode
    ensures Forwards(adminId, mode, msg, userId) <==> mode
    ensures mode ==> CommandReply(adminId, mode, msg, userId, ok) == Some(if ok then ForwardedText else ForwardFailedText)
    ensures !mode ==> CommandReply(adminId, mode, msg, userId, ok).None?
  {
  }

  /** A message gets a reply exactly when it is forwarded or is one of the three commands of
   *  the administrator. */
  lemma ReplyIff(adminId: Option<string>, mode: bool, msg: string, userId: string, ok: bool)
    ensures CommandReply(adminId, mode, msg, userId, ok).Some?
        <==> Forwards(adminId, mode, msg, userId)
             || (IsAdmin(adminId, userId) && (msg == EnableCommand || msg == DisableCommand || msg == StatusCommand))
  {
  }

  /** Only the two switches change the mode. */
  lemma ModeChangesOnlyBySwitch(adminId: Option<string>, mode: bool, msg: string, userId: string)
    requires NextMode(adminId, mode, msg, userId) != mode
    ensures IsAdmin(adminId, userId) && (msg == EnableCommand || msg == DisableCommand)
  {
  }

  // ---- a sequence of messages ----

  /** An administrator's message with a forwarding outcome. */
  datatype Incoming = Incoming(msg: string, userId: string, forwardOk: bool)

  /** The mode after a sequence of messages. */
  function ModeAfter(adminId: Option<string>, mode: bool, ms: seq<Incoming>): bool
    decreases |ms|
  {
    if ms == [] then mode
    else NextMode(adminId, ModeAfter(adminId, mode, ms[..|ms| - 1]), ms[|ms| - 1].msg, ms[|ms| - 1].userId)
  }

  /** A switch command from the administrator. */
  predicate IsSwitch(adminId: Option<string>, m: Incoming)
  {
    IsAdmin(adminId, m.userId) && (m.msg == EnableCommand || m.msg == DisableCommand)
  }

  /** Without a switch from the administrator, the mode stays what it was. */
  lemma {:induction false} NoSwitchKeeps(adminId: Option<string>, mode: bool, ms: seq<Incoming>)
    requires forall i :: 0 <= i < |ms| ==> !IsSwitch(adminId, ms[i])
    ensures ModeAfter(adminId, mode, ms) == mode
    decreases |ms|
  {
    if ms != [] {
      var init := ms[..|ms| - 1];
      assert forall i :: 0 <= i < |init| ==> init[i] == ms[i];
      NoSwitchKeeps(adminId, mode, init);
      assert !IsSwitch(adminId, ms[|ms| - 1]);
    }
  }

  /** The mode after a sequence is set by its last switch from the administrator. */
  lemma {:induction false} LastSwitchWins(adminId: Option<string>, mode: bool, ms: seq<Incoming>, i: nat)
    requires i < |ms| && IsSwitch(adminId, ms[i])
    requires forall j :: i < j < |ms| ==> !IsSwitch(adminId, ms[j])
    ensures ModeAfter(adminId, mode, ms) == (ms[i].msg == EnableCommand)
    decreases |ms|
  {
    var init := ms[..|ms| - 1];
    if i < |ms| - 1 {
      assert forall j :: 0 <= j < |init| ==> init[j] == ms[j];
      LastSwitchWins(adminId, mode, init, i);
      assert !IsSwitch(adminId, ms[|ms| - 1]);
    }
  }

  /** The replies to a sequence of messages, each given the mode the earlier ones left. */
  function RepliesAfter(adminId: Option<string>, mode: bool, ms: seq<Incoming>): (rs: seq<Option<string>>)
    ensures |rs| == |ms|
    decreases |ms|
  {
    if ms == [] then []
    else
      var init := ms[..|ms| - 1];
      var m := ms[|ms| - 1];
      RepliesAfter(adminId, mode, init) + [CommandReply(adminId, ModeAfter(adminId, mode, init), m.msg, m.userId, m.forwardOk)]
  }

  /** Reply `i` is the one message `i` gets in the mode left by the messages before it. */
  lemma {:induction false} RepliesAfterAt(adminId: Option<string>, mode: bool, ms: seq<Incoming>, i: nat)
    requires i < |ms|
    ensures RepliesAfter(adminId, mode, ms)[i]
         == CommandReply(adminId, ModeAfter(adminId, mode, ms[..i]), ms[i].msg, ms[i].userId, ms[i].forwardOk)
    decreases |ms|
  {
    var init := ms[..|ms| - 1];
    if i < |ms| - 1 {
      RepliesAfterAt(adminId, mode, init, i);
      assert init[..i] == ms[..i];
    }
  }

  /** Feeding a controller a sequence of messages leaves it in `ModeAfter` of that sequence,
   *  having answered with `RepliesAfter`. */
  method Run(c: AdminController, ms: seq<Incoming>) returns (replies: seq<Option<string>>)
    modifies c
    ensures c.pushMode == ModeAfter(c.adminId, old(c.pushMode), ms)
    ensures replies == RepliesAfter(c.adminId, old(c.pushMode), ms)
  {
    replies := [];
    ghost var start := c.pushMode;
    for i := 0 to |ms|
      invariant c.pushMode == ModeAfter(c.adminId, start, ms[..i])
      invariant replies == RepliesAfter(c.adminId, start, ms[..i])
    {
      assert ms[..i + 1][..i] == ms[..i];
      var r := c.HandleAdminCommand(ms[i].msg, ms[i].userId, ms[i].forwardOk);
      replies := replies + [r];
    }
    assert ms[..|ms|] == ms;
  }
}
