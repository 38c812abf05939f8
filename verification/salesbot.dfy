/** The bot's process-wide state and the handlers that change it: the
    per-correspondent memory, the mini-inbox, the paused set with its
    auto-release timers, the nudge timers, and the messages sent out. */
module SalesBot {
  import opened Wrappers
  import opened Chunking
  import opened Admin
  import opened Inbox
  import opened Conversation
  import opened Dispatch
  import opened Timers

  /** One part handed to the messaging provider, as UTF-16 code units. */
  datatype Delivery = Delivery(to: Id, text: seq<CodeUnit>)

  /** The follow-up texts sent 20 minutes, 24 hours and 48 hours after a reply. */
  const Followup20Text: string := "👋 Quedo atento. Si te sirve, te mando 2–3 ejemplos o te explico el proceso en 1 minuto. ¿Por dónde te gustaría empezar?"
  const Followup24Text: string := "Solo para no perder tu mensaje: esta semana la página web profesional queda desde $4,500 (o $5,999 con hosting+dominio). ¿Te mando ejemplos o prefieres ver el paso a paso?"
  const Followup48Text: string := "Cierro por aquí para no molestarte. Si quieres retomar, te dejo mi agenda: " + CalendlyUrl + ". Con gusto lo vemos cuando te acomode 🙌"

  /** Re-engagement text sent when an auto-release timer fires. */
  const ResumeText: string := "¿Seguimos? Te apoyo con ejemplos o te explico el proceso en 1 minuto 🙌"

  /** Sent when an inbound message carries no text. */
  const AskForTextText: string := "¿Podrías escribirme en texto lo que necesitas? Así te ayudo más rápido 🙌"

  /** Logged in place of a missing inbound text. */
  const NoText: string := "[no-text]"

  /** The deliveries that sending `parts` to `to` makes, in order. */
  function Deliveries(to: Id, parts: seq<seq<CodeUnit>>): seq<Delivery>
  {
    if parts == [] then [] else Deliveries(to, parts[..|parts| - 1]) + [Delivery(to, parts[|parts| - 1])]
  }

  function InboundText(txt: Option<string>): string
  {
    if Present(txt) then txt.value else NoText
  }

  ghost predicate HistoryBounded(memory: map<Id, UserState>, id: Id)
  {
    id in memory ==> |memory[id].history| <= HistoryWindow + 1
  }

  ghost predicate LogBounded(chats: map<Id, Chat>, id: Id)
  {
    id in chats ==> |chats[id].messages| <= LogCap
  }

  /** HTTP status codes the handlers answer with. */
  const Ok: nat := 200
  const BadRequest: nat := 400
  const Unauthorized: nat := 401

  class Bot {
    /** Configuration read once at start-up. */
    const mode: BotMode
    const adminToken: string
    const takeoverMin: nat
    /** Whether a language-model client is configured, and the canned replies. */
    const config: ReplyConfig
    /** The canned texts, fixed at start-up. */
    const askText: string
    const resumeText: string
    const followup20: string
    const followup24: string
    const followup48: string

    /** The clock, in ms. */
    var now: nat
    /** Per-correspondent conversation memory. */
    var memory: map<Id, UserState>
    /** The mini-inbox. */
    var chats: map<Id, Chat>
    /** Correspondents an operator has taken over. */
    var manualSet: set<Id>
    /** The handle of each paused correspondent's auto-release timer. */
    var releaseTimers: map<Id, Handle>
    /** Every timer armed so far, by handle: the runtime's timer objects. */
    var armed: map<Handle, Timer>
    /** The handles of the timers that have neither fired nor been cleared. */
    var live: set<Handle>
    var nextHandle: Handle
    /** Everything handed to the messaging provider, part by part. */
    ghost var outbox: seq<Delivery>

    /** Histories stay within one exchange of the window, logs within the cap. */
    ghost predicate Bounded()
      reads this`memory, this`chats
    {
      && (forall id :: HistoryBounded(memory, id))
      && (forall id :: LogBounded(chats, id))
    }

    /** Everything but the agreement of the paused set with the auto-release timers. */
    ghost predicate Consistent()
      reads this`memory, this`chats, this`releaseTimers, this`armed, this`live, this`nextHandle
    {
      TimersOk(memory, releaseTimers, armed, live, nextHandle) && Bounded()
    }

    /** The object invariant: the timer bookkeeping is consistent, the logs are
        bounded, and a correspondent is paused exactly when it has an
        auto-release timer. */
    ghost predicate Valid()
      reads this`memory, this`chats, this`manualSet, this`releaseTimers, this`armed, this`live, this`nextHandle
    {
      Consistent() && manualSet == releaseTimers.Keys
    }

    ghost function History(id: Id): seq<Turn>
      reads this`memory
    {
      if id in memory then memory[id].history else []
    }

    ghost function Log(id: Id): seq<Entry>
      reads this`chats
    {
      if id in chats then chats[id].messages else []
    }

    /** The record `getUserState` returns for `id`. */
    ghost function StateOrFresh(id: Id): UserState
      reads this`memory, this`now
    {
      if id in memory then memory[id] else UserState([], now, map[])
    }

    ghost function ChatOrFresh(id: Id): Chat
      reads this`chats
    {
      if id in chats then chats[id] else Chat(id, [])
    }

    /** When `id`'s nudge `n` will fire, if it is pending. */
    ghost function NudgeDue(id: Id, n: NudgeName): Option<nat>
      reads this`memory, this`armed, this`live
    {
      NudgeDueOf(memory, armed, live, id, n)
    }

    /** All three of `id`'s nudges are pending and count from now. */
    ghost predicate NudgesFresh(id: Id)
      reads this`memory, this`armed, this`live, this`now
    {
      forall n :: NudgeDue(id, n) == Some(now + NudgeDelay(n))
    }

    /** When `id`'s auto-release timer will fire, if it is pending. */
    ghost function ReleaseDue(id: Id): Option<nat>
      reads this`releaseTimers, this`armed, this`live
    {
      ReleaseDueOf(releaseTimers, armed, live, id)
    }

    /** The branch the webhook takes for an event in the current state. */
    ghost function DecisionFor(from: Option<string>, txt: Option<string>): Decision
      reads this`manualSet
    {
      Decide(mode, from, txt, Present(from) && from.value in manualSet)
    }

    constructor (mode: BotMode, adminToken: string, takeoverMin: nat, clientPresent: bool)
      ensures Valid()
      ensures this.mode == mode && this.adminToken == adminToken
      ensures this.takeoverMin == takeoverMin && config == DefaultConfig(clientPresent)
      ensures askText == AskForTextText && resumeText == ResumeText
      ensures followup20 == Followup20Text && followup24 == Followup24Text && followup48 == Followup48Text
      ensures now == 0 && memory == map[] && chats == map[] && manualSet == {}
      ensures releaseTimers == map[] && armed == map[] && live == {} && outbox == []
    {
      this.mode := mode;
      this.adminToken := adminToken;
      this.takeoverMin := takeoverMin;
      config := DefaultConfig(clientPresent);
      askText := AskForTextText;
      resumeText := ResumeText;
      followup20, followup24, followup48 := Followup20Text, Followup24Text, Followup48Text;
      now := 0;
      memory := map[];
      chats := map[];
      manualSet := {};
      releaseTimers := map[];
      armed := map[];
      live := {};
      nextHandle := 0;
      outbox := [];
    }

    /** The text the nudge `n` sends. */
    function FollowupText(n: NudgeName): string
    {
      match n
      case T20 => followup20
      case T24 => followup24
      case T48 => followup48
    }

    /** A correspondent is paused exactly when its auto-release timer is pending. */
    lemma PausedIffReleaseArmed(id: Id)
      requires Valid()
      ensures id in manualSet <==> ReleaseDue(id).Some?
    {
      assert RecordedRelease(releaseTimers, armed, live, id);
    }

    /** Time passes. */
    method Tick(elapsed: nat)
      requires Valid()
      modifies this`now
      ensures Valid() && now == old(now) + elapsed
    {
      now := now + elapsed;
    }

    /** Returns `id`'s record, creating an empty one on first use. */
    method GetUserState(id: Id) returns (st: UserState)
      requires Valid()
      modifies this`memory
      ensures Valid()
      ensures st == old(StateOrFresh(id)) && memory == old(memory)[id := st]
      ensures id in old(memory) ==> memory == old(memory)
      ensures id !in old(memory) ==> st.history == [] && st.timers == map[]
      ensures forall other, n :: NudgeDue(other, n) == old(NudgeDue(other, n))
    {
      ReplaceRecord(memory, releaseTimers, armed, live, nextHandle, id, StateOrFresh(id));
      if id !in memory {
        var memory' := memory[id := UserState([], now, map[])];
        forall i
          ensures HistoryBounded(memory', i)
        {
          assert HistoryBounded(memory, i);
        }
        memory := memory';
      }
      st := memory[id];
    }

    /** Appends an entry to `id`'s inbox log, dropping the oldest beyond the cap. */
    method PushMsg(id: Id, dir: Direction, text: string)
      requires Valid()
      modifies this`chats
      ensures Valid()
      ensures chats == old(chats)[id := Chat(old(ChatOrFresh(id)).name, Appended(old(Log(id)), Entry(dir, text, now)))]
      ensures Log(id) == Appended(old(Log(id)), Entry(dir, text, now))
      ensures forall other :: other != id ==> Log(other) == old(Log(other))
    {
      var chat := if id in chats then chats[id] else Chat(id, []);
      assert LogBounded(chats, id);
      var messages := chat.messages + [Entry(dir, text, now)];
      if |messages| > LogCap {
        messages := messages[1..];
      }
      var chats' := chats[id := chat.(messages := messages)];
      forall i
        ensures LogBounded(chats', i)
      {
        assert LogBounded(chats, i);
      }
      chats := chats';
    }

    /** Hands `body` to the provider in parts of at most `MaxPart` code units. */
    method SendText(to: Id, body: string)
      requires Valid()
      modifies this`outbox
      ensures Valid()
      ensures outbox == old(outbox) + Deliveries(to, Chunks(Utf16(body)))
    {
      var parts := SplitBody(Utf16(body));
      for k := 0 to |parts|
        invariant outbox == old(outbox) + Deliveries(to, parts[..k])
      {
        assert parts[..k + 1][..k] == parts[..k];
        outbox := outbox + [Delivery(to, parts[k])];
      }
      assert parts[..|parts|] == parts;
    }

    /** Clears every nudge recorded for `id` and arms exactly the three nudges from now. */
    method ScheduleFollowups(id: Id)
      requires Valid()
      modifies this`memory, this`armed, this`live, this`nextHandle
      ensures Valid()
      ensures memory == old(memory)[id := old(StateOrFresh(id)).(timers := NudgeHandles(old(nextHandle)))]
      ensures armed == ArmNudges(old(armed), id, now, old(nextHandle))
      ensures live == old(live) - old(StateOrFresh(id)).timers.Values + {old(nextHandle), old(nextHandle) + 1, old(nextHandle) + 2}
      ensures nextHandle == old(nextHandle) + 3
      ensures NudgesFresh(id)
      ensures forall other, n :: other != id ==> NudgeDue(other, n) == old(NudgeDue(other, n))
      ensures forall other :: ReleaseDue(other) == old(ReleaseDue(other))
    {
      var st := GetUserState(id);
      Rearm(id);
    }

    /** Replaces the nudges recorded for a known `id` by three fresh ones. */
    method Rearm(id: Id)
      requires Valid() && id in memory
      modifies this`memory, this`armed, this`live, this`nextHandle
      ensures Valid()
      ensures memory == RearmedMemory(old(memory), id, old(nextHandle))
      ensures armed == ArmNudges(old(armed), id, now, old(nextHandle))
      ensures live == RearmedLive(old(memory), old(live), id, old(nextHandle))
      ensures nextHandle == old(nextHandle) + 3
      ensures NudgesFresh(id)
      ensures forall other, n :: other != id ==> NudgeDue(other, n) == old(NudgeDue(other, n))
      ensures forall other :: ReleaseDue(other) == old(ReleaseDue(other))
    {
      var h := nextHandle;
      var memory', armed', live' := RearmedMemory(memory, id, h), ArmNudges(armed, id, now, h), RearmedLive(memory, live, id, h);
      RearmKeepsTimersOk(memory, releaseTimers, armed, live, h, id, now);
      forall other, n
        ensures NudgeDueOf(memory', armed', live', other, n)
                == if other == id then Some(now + NudgeDelay(n)) else NudgeDueOf(memory, armed, live, other, n)
      {
        RearmLiveNudges(memory, releaseTimers, armed, live, h, id, now, n);
        RearmLeavesOthers(memory, releaseTimers, armed, live, h, id, now, other, n);
      }
      forall other
        ensures ReleaseDueOf(releaseTimers, armed', live', other) == ReleaseDueOf(releaseTimers, armed, live, other)
      {
        RearmLeavesOthers(memory, releaseTimers, armed, live, h, id, now, other, T20);
      }
      forall i
        ensures HistoryBounded(memory', i)
      {
        assert HistoryBounded(memory, i);
      }
      memory, armed, live, nextHandle := memory', armed', live', h + 3;
    }

    /** Records the user turn in `id`'s history and produces the reply, the
        language-model call being given as `outcome`. */
    method LlmReply(id: Id, userText: string, outcome: LlmOutcome) returns (reply: string)
      requires Valid()
      modifies this`memory
      ensures Valid()
      ensures reply == ReplyFor(config, outcome)
      ensures memory == old(memory)[id := UserState(HistoryAfter(old(History(id)), userText, config, outcome),
                                                    now, old(StateOrFresh(id)).timers)]
      ensures forall other, n :: NudgeDue(other, n) == old(NudgeDue(other, n))
    {
      var st := GetUserState(id);
      var history := Window(st.history + [Turn(User, userText)]);
      if !config.clientPresent {
        reply := config.noClient;
      } else {
        match outcome
        case ApiError =>
          reply := config.apiError;
        case Completion(text) =>
          reply := if text != "" then text else config.emptyCompletion;
          history := history + [Turn(Assistant, reply)];
      }
      assert history == HistoryAfter(st.history, userText, config, outcome);
      var record := UserState(history, now, st.timers);
      ReplaceRecord(memory, releaseTimers, armed, live, nextHandle, id, record);
      var memory' := memory[id := record];
      forall i
        ensures HistoryBounded(memory', i)
      {
        assert HistoryBounded(memory, i);
      }
      memory := memory';
    }

    /** Clears `id`'s auto-release timer, if any, and arms a new one `minutes` from now. */
    method ArmRelease(id: Id, minutes: nat)
      requires Consistent() && manualSet == releaseTimers.Keys + {id}
      modifies this`releaseTimers, this`armed, this`live, this`nextHandle
      ensures Valid()
      ensures releaseTimers == old(releaseTimers)[id := old(nextHandle)]
      ensures armed == old(armed)[old(nextHandle) := Timer(id, AutoRelease, now, minutes * MinuteMs)]
      ensures live == ReleaseCleared(old(releaseTimers), old(live), id) + {old(nextHandle)}
      ensures nextHandle == old(nextHandle) + 1
      ensures ReleaseDue(id) == Some(now + minutes * MinuteMs)
      ensures forall other :: other != id ==> ReleaseDue(other) == old(ReleaseDue(other))
      ensures forall other, n :: NudgeDue(other, n) == old(NudgeDue(other, n))
    {
      var h := nextHandle;
      var timer := Timer(id, AutoRelease, now, minutes * MinuteMs);
      ArmReleaseKeepsTimersOk(memory, releaseTimers, armed, live, h, id, now, minutes * MinuteMs);
      var releaseTimers', armed', live' := releaseTimers[id := h], armed[h := timer], ReleaseCleared(releaseTimers, live, id) + {h};
      forall other
        ensures ReleaseDueOf(releaseTimers', armed', live', other)
                == if other == id then Some(now + minutes * MinuteMs) else ReleaseDueOf(releaseTimers, armed, live, other)
      {
        ArmReleaseEffect(memory, releaseTimers, armed, live, h, id, now, minutes * MinuteMs, other, T20);
      }
      forall other, n
        ensures NudgeDueOf(memory, armed', live', other, n) == NudgeDueOf(memory, armed, live, other, n)
      {
        ArmReleaseEffect(memory, releaseTimers, armed, live, h, id, now, minutes * MinuteMs, other, n);
      }
      releaseTimers, armed, live, nextHandle := releaseTimers', armed', live', h + 1;
    }

    /** The message half of an answer: the reply is generated and recorded in
        `id`'s history, then sent and logged; no timer is touched. */
    method SendReply(id: Id, text: string, outcome: LlmOutcome) returns (reply: string)
      requires Valid()
      modifies this`memory, this`chats, this`outbox
      ensures Valid()
      ensures reply == ReplyFor(config, outcome)
      ensures outbox == old(outbox) + Deliveries(id, Chunks(Utf16(reply)))
      ensures Log(id) == Appended(old(Log(id)), Entry(Out, reply, now))
      ensures forall other :: other != id ==> Log(other) == old(Log(other))
      ensures memory == old(memory)[id := UserState(HistoryAfter(old(History(id)), text, config, outcome),
                                                    now, old(StateOrFresh(id)).timers)]
      ensures forall other, n :: NudgeDue(other, n) == old(NudgeDue(other, n))
    {
      reply := LlmReply(id, text, outcome);
      SendText(id, reply);
      PushMsg(id, Out, reply);
    }

    /** Answers a correspondent whose inbound text was logged: the reply is
        generated, sent, logged, and the nudges re-armed. */
    method Respond(id: Id, text: string, outcome: LlmOutcome)
      requires Valid()
      modifies this`memory, this`chats, this`armed, this`live, this`nextHandle, this`outbox
      ensures Valid()
      ensures var reply := ReplyFor(config, outcome);
        && outbox == old(outbox) + Deliveries(id, Chunks(Utf16(reply)))
        && Log(id) == Appended(old(Log(id)), Entry(Out, reply, now))
      ensures forall other :: other != id ==> Log(other) == old(Log(other))
      ensures History(id) == HistoryAfter(old(History(id)), text, config, outcome)
      ensures memory == old(memory)[id := UserState(HistoryAfter(old(History(id)), text, config, outcome),
                                                    now, NudgeHandles(old(nextHandle)))]
      ensures NudgesFresh(id)
      ensures forall other, n :: other != id ==> NudgeDue(other, n) == old(NudgeDue(other, n))
      ensures forall other :: ReleaseDue(other) == old(ReleaseDue(other))
    {
      ghost var memory0, record := memory, UserState(HistoryAfter(History(id), text, config, outcome), now, NudgeHandles(nextHandle));
      var reply := SendReply(id, text, outcome);
      ScheduleFollowups(id);
      assert memory == memory0[id := record];
    }

    /** Asks a correspondent who sent no text to write one. */
    method AskText(id: Id)
      requires Valid()
      modifies this`chats, this`outbox
      ensures Valid()
      ensures outbox == old(outbox) + Deliveries(id, Chunks(Utf16(askText)))
      ensures Log(id) == Appended(old(Log(id)), Entry(Out, askText, now))
      ensures forall other :: other != id ==> Log(other) == old(Log(other))
    {
      SendText(id, askText);
      PushMsg(id, Out, askText);
    }

    /** POST /webhook: one inbound event with sender `from` and trimmed text
        `txt`; `outcome` is what the language model would answer. Always
        answers 200. */
    method Webhook(from: Option<string>, txt: Option<string>, outcome: LlmOutcome) returns (status: nat)
      requires Valid()
      modifies this`memory, this`chats, this`releaseTimers, this`armed, this`live, this`nextHandle, this`outbox
      ensures Valid() && status == Ok
      ensures old(DecisionFor(from, txt)) == Ignore ==> unchanged(this)
      ensures Present(from) ==> (forall other :: other != from.value ==> Log(other) == old(Log(other)))
      ensures old(DecisionFor(from, txt)) in {LogOnly, RefreshPause} ==>
        Log(from.value) == Appended(old(Log(from.value)), Entry(In, InboundText(txt), now))
      ensures old(DecisionFor(from, txt)) == AskForText ==>
        Log(from.value) == Appended(Appended(old(Log(from.value)), Entry(In, NoText, now)), Entry(Out, askText, now))
      ensures old(DecisionFor(from, txt)) == Reply ==>
        Log(from.value) == Appended(Appended(old(Log(from.value)), Entry(In, txt.value, now)),
                                    Entry(Out, ReplyFor(config, outcome), now))
      ensures old(DecisionFor(from, txt)) in {Ignore, LogOnly, RefreshPause} ==> outbox == old(outbox)
      ensures old(DecisionFor(from, txt)) == AskForText ==> outbox == old(outbox) + Deliveries(from.value, Chunks(Utf16(askText)))
      ensures old(DecisionFor(from, txt)) == Reply ==>
        outbox == old(outbox) + Deliveries(from.value, Chunks(Utf16(ReplyFor(config, outcome))))
      ensures old(DecisionFor(from, txt)) != Reply ==> memory == old(memory)
      ensures old(DecisionFor(from, txt)) == Reply ==>
        && History(from.value) == HistoryAfter(old(History(from.value)), txt.value, config, outcome)
        && memory == old(memory)[from.value := UserState(HistoryAfter(old(History(from.value)), txt.value, config, outcome),
                                                        now, NudgeHandles(old(nextHandle)))]
        && NudgesFresh(from.value)
        && (forall other, n :: other != from.value ==> NudgeDue(other, n) == old(NudgeDue(other, n)))
        && (forall other :: ReleaseDue(other) == old(ReleaseDue(other)))
      ensures old(DecisionFor(from, txt)) == RefreshPause ==>
        && ReleaseDue(from.value) == Some(now + takeoverMin * MinuteMs)
        && (forall other :: other != from.value ==> ReleaseDue(other) == old(ReleaseDue(other)))
        && (forall other, n :: NudgeDue(other, n) == old(NudgeDue(other, n)))
      ensures old(DecisionFor(from, txt)) in {Ignore, LogOnly, AskForText} ==>
        releaseTimers == old(releaseTimers) && armed == old(armed) && live == old(live) && nextHandle == old(nextHandle)
    {
      status := Ok;
      if !Present(from) {
        return;
      }
      var id := from.value;
      PushMsg(id, In, InboundText(txt));
      if mode == Off {
        return;
      }
      if mode == Manual && id in manualSet {
        ArmRelease(id, takeoverMin);
        return;
      }
      if !Present(txt) {
        AskText(id);
        return;
      }
      Respond(id, txt.value, outcome);
    }

    /** Whether an admin call carries the configured token. */
    predicate Admitted(cred: Credentials)
    {
      AssertAdmin(adminToken, cred)
    }

    /** Pauses `id` (already added to the paused set) and arms its auto-release
        timer `minutes` from now; nothing else about the correspondent changes. */
    method Pause(id: Id, minutes: nat)
      requires Valid()
      modifies this`manualSet, this`releaseTimers, this`armed, this`live, this`nextHandle
      ensures Valid()
      ensures manualSet == old(manualSet) + {id}
      ensures ReleaseDue(id) == Some(now + minutes * MinuteMs)
      ensures forall other :: other != id ==> ReleaseDue(other) == old(ReleaseDue(other))
      ensures forall other, n :: NudgeDue(other, n) == old(NudgeDue(other, n))
    {
      manualSet := manualSet + {id};
      ArmRelease(id, minutes);
    }

    /** Lifts `id`'s pause: leaves the paused set and its auto-release timer is
        cleared; nothing is sent and the nudges are left as they are. */
    method Unpause(id: Id)
      requires Valid()
      modifies this`manualSet, this`releaseTimers, this`live
      ensures Valid()
      ensures manualSet == old(manualSet) - {id}
      ensures releaseTimers == old(releaseTimers) - {id}
      ensures live == ReleaseCleared(old(releaseTimers), old(live), id)
      ensures id !in old(manualSet) ==> unchanged(this)
      ensures ReleaseDue(id) == None
      ensures forall other :: other != id ==> ReleaseDue(other) == old(ReleaseDue(other))
      ensures forall other, n :: NudgeDue(other, n) == old(NudgeDue(other, n))
    {
      var releaseTimers', live' := releaseTimers - {id}, ReleaseCleared(releaseTimers, live, id);
      DropRelease(memory, releaseTimers, armed, live, nextHandle, id, id, T20);
      forall other
        ensures ReleaseDueOf(releaseTimers', armed, live', other)
                == if other == id then None else ReleaseDueOf(releaseTimers, armed, live, other)
      {
        DropRelease(memory, releaseTimers, armed, live, nextHandle, id, other, T20);
      }
      forall other, n
        ensures NudgeDueOf(memory, armed, live', other, n) == NudgeDueOf(memory, armed, live, other, n)
      {
        DropRelease(memory, releaseTimers, armed, live, nextHandle, id, other, n);
      }
      if id !in manualSet {
        assert releaseTimers' == releaseTimers && manualSet - {id} == manualSet;
      }
      manualSet, releaseTimers, live := manualSet - {id}, releaseTimers', live';
    }

    /** POST /api/send: an operator message to `to`. It is sent and logged, and
        the correspondent is paused for the configured time. */
    method ApiSend(cred: Credentials, to: Option<string>, text: Option<string>) returns (status: nat)
      requires Valid()
      modifies this`chats, this`manualSet, this`releaseTimers, this`armed, this`live, this`nextHandle, this`outbox
      ensures Valid()
      ensures status == if !Admitted(cred) then Unauthorized
                        else if !Present(to) || !Present(text) then BadRequest
                        else Ok
      ensures status != Ok ==> unchanged(this)
      ensures status == Ok ==>
        && outbox == old(outbox) + Deliveries(to.value, Chunks(Utf16(text.value)))
        && Log(to.value) == Appended(old(Log(to.value)), Entry(Out, text.value, now))
        && manualSet == old(manualSet) + {to.value}
        && (forall other :: other != to.value ==> Log(other) == old(Log(other)))
        && ReleaseDue(to.value) == Some(now + takeoverMin * MinuteMs)
        && (forall other :: other != to.value ==> ReleaseDue(other) == old(ReleaseDue(other)))
        && (forall other, n :: NudgeDue(other, n) == old(NudgeDue(other, n)))
        && memory == old(memory)
    {
      if !Admitted(cred) {
        return Unauthorized;
      }
      if !Present(to) || !Present(text) {
        return BadRequest;
      }
      SendText(to.value, text.value);
      PushMsg(to.value, Out, text.value);
      Pause(to.value, takeoverMin);
      status := Ok;
    }

    /** POST /api/takeover: pauses `waid` for `minutes`, or for the configured
        time when no minutes are given; nothing is sent. */
    method ApiTakeover(cred: Credentials, waid: Option<string>, minutes: Option<nat>) returns (status: nat)
      requires Valid()
      modifies this`manualSet, this`releaseTimers, this`armed, this`live, this`nextHandle
      ensures Valid()
      ensures status == if !Admitted(cred) then Unauthorized else if !Present(waid) then BadRequest else Ok
      ensures status != Ok ==> unchanged(this)
      ensures status == Ok ==>
        && manualSet == old(manualSet) + {waid.value}
        && ReleaseDue(waid.value) == Some(now + (if minutes.Some? then minutes.value else takeoverMin) * MinuteMs)
        && (forall other :: other != waid.value ==> ReleaseDue(other) == old(ReleaseDue(other)))
        && (forall other, n :: NudgeDue(other, n) == old(NudgeDue(other, n)))
    {
      if !Admitted(cred) {
        return Unauthorized;
      }
      if !Present(waid) {
        return BadRequest;
      }
      Pause(waid.value, if minutes.Some? then minutes.value else takeoverMin);
      status := Ok;
    }

    /** POST /api/release: lifts `waid`'s pause at once; nothing is sent and no
        nudge is armed. */
    method ApiRelease(cred: Credentials, waid: Option<string>) returns (status: nat)
      requires Valid()
      modifies this`manualSet, this`releaseTimers, this`live
      ensures Valid()
      ensures status == if !Admitted(cred) then Unauthorized else if !Present(waid) then BadRequest else Ok
      ensures status != Ok ==> unchanged(this)
      ensures status == Ok ==>
        && manualSet == old(manualSet) - {waid.value}
        && ReleaseDue(waid.value) == None
        && (waid.value !in old(manualSet) ==> unchanged(this))
        && (forall other :: other != waid.value ==> ReleaseDue(other) == old(ReleaseDue(other)))
        && (forall other, n :: NudgeDue(other, n) == old(NudgeDue(other, n)))
    {
      if !Admitted(cred) {
        return Unauthorized;
      }
      if !Present(waid) {
        return BadRequest;
      }
      Unpause(waid.value);
      status := Ok;
    }

    /** A live nudge whose time has come sends its text to its owner. It looks
        neither at the pause nor at the mode, and leaves the record alone. */
    method RunNudge(h: Handle)
      requires Valid() && h in live && h in armed && armed[h].job.Nudge?
      modifies this`live, this`outbox
      ensures Valid()
      ensures var t := old(armed[h]);
        && outbox == old(outbox) + Deliveries(t.owner, Chunks(Utf16(FollowupText(t.job.name))))
        && NudgeDue(t.owner, t.job.name) == None
        && (forall other, n :: other != t.owner || n != t.job.name ==> NudgeDue(other, n) == old(NudgeDue(other, n)))
      ensures live == old(live) - {h}
      ensures forall other :: ReleaseDue(other) == old(ReleaseDue(other))
    {
      var t := armed[h];
      FireNudge(memory, releaseTimers, armed, live, nextHandle, h, t.owner, T20);
      forall other, n
        ensures NudgeDueOf(memory, armed, live - {h}, other, n)
                == if other == t.owner && n == t.job.name then None else NudgeDueOf(memory, armed, live, other, n)
      {
        FireNudge(memory, releaseTimers, armed, live, nextHandle, h, other, n);
      }
      forall other
        ensures ReleaseDueOf(releaseTimers, armed, live - {h}, other) == ReleaseDueOf(releaseTimers, armed, live, other)
      {
        FireNudge(memory, releaseTimers, armed, live, nextHandle, h, other, T20);
      }
      live := live - {h};
      SendText(t.owner, FollowupText(t.job.name));
    }

    /** A live auto-release timer whose time has come lifts its owner's pause,
        sends the re-engagement text and re-arms the three nudges. */
    method RunRelease(h: Handle)
      requires Valid() && h in live && h in armed && armed[h].job.AutoRelease?
      modifies this`memory, this`manualSet, this`releaseTimers, this`armed, this`live, this`nextHandle, this`outbox
      ensures Valid()
      ensures var id := old(armed[h].owner);
        && manualSet == old(manualSet) - {id}
        && ReleaseDue(id) == None
        && outbox == old(outbox) + Deliveries(id, Chunks(Utf16(resumeText)))
        && memory == old(memory)[id := old(StateOrFresh(id)).(timers := NudgeHandles(old(nextHandle)))]
        && NudgesFresh(id)
        && (forall other :: other != id ==> ReleaseDue(other) == old(ReleaseDue(other)))
        && (forall other, n :: other != id ==> NudgeDue(other, n) == old(NudgeDue(other, n)))
    {
      var id := armed[h].owner;
      assert LiveRelease(releaseTimers, armed, live, h);
      Unpause(id);
      SendText(id, resumeText);
      ScheduleFollowups(id);
    }

    /** The environment runs a live timer once its time has come. */
    method Fire(h: Handle)
      requires Valid() && h in live && h in armed && Due(armed[h]) <= now
      modifies this`memory, this`manualSet, this`releaseTimers, this`armed, this`live, this`nextHandle, this`outbox
      ensures Valid()
      ensures var t := old(armed[h]);
        t.job.Nudge? ==>
          && outbox == old(outbox) + Deliveries(t.owner, Chunks(Utf16(FollowupText(t.job.name))))
          && NudgeDue(t.owner, t.job.name) == None
          && (forall other, n :: other != t.owner || n != t.job.name ==> NudgeDue(other, n) == old(NudgeDue(other, n)))
          && (forall other :: ReleaseDue(other) == old(ReleaseDue(other)))
          && live == old(live) - {h}
          && manualSet == old(manualSet) && memory == old(memory)
      ensures var t := old(armed[h]);
        t.job.AutoRelease? ==>
          && outbox == old(outbox) + Deliveries(t.owner, Chunks(Utf16(resumeText)))
          && manualSet == old(manualSet) - {t.owner}
          && ReleaseDue(t.owner) == None
          && memory == old(memory)[t.owner := old(StateOrFresh(t.owner)).(timers := NudgeHandles(old(nextHandle)))]
          && NudgesFresh(t.owner)
          && (forall other :: other != t.owner ==> ReleaseDue(other) == old(ReleaseDue(other)))
          && (forall other, n :: other != t.owner ==> NudgeDue(other, n) == old(NudgeDue(other, n)))
    {
      if armed[h].job.Nudge? {
        RunNudge(h);
      } else {
        RunRelease(h);
      }
    }
  }
}
