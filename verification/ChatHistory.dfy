/** The Ollama client's simulated sessions (sidequest/agents/ollama_client.py:133-219). A send appends the
    user message, caps the history, awaits the server, then appends the reply and caps again. Sends of
    any sessions may be under way together, and a send may fail after its first half. */
module ChatHistory {
  import opened Options

  const HISTORY_CAP := 32

  datatype Role = System | User | Assistant

  datatype Message = Message(role: Role, content: string)

  predicate Led(h: seq<Message>) { h != [] && h[0].role == System }

  /** _cap_history */
  function Cap(h: seq<Message>): seq<Message> {
    if |h| <= HISTORY_CAP * 2 + (if Led(h) then 1 else 0) then h
    else if Led(h) then [h[0]] + h[|h| - HISTORY_CAP * 2..]
    else h[|h| - HISTORY_CAP * 2..]
  }

  /** Only the opening message can be a system message. */
  ghost predicate WellFormed(log: seq<Message>) {
    forall i | 0 < i < |log| :: log[i].role != System
  }

  function Latest(s: seq<Message>, n: nat): seq<Message> { if |s| <= n then s else s[|s| - n..] }

  lemma LatestStep(s: seq<Message>, m: Message, n: nat)
    requires n > 0
    ensures Latest(Latest(s, n) + [m], n) == Latest(s + [m], n)
  {}

  /** A truncation keeps a leading system message apart and the latest 64 of the rest. */
  lemma CapIs(h: seq<Message>)
    ensures Cap(h) == if Led(h) then [h[0]] + Latest(h[1..], 64) else Latest(h, 64)
  {}

  lemma LedStep(log: seq<Message>, m: Message)
    requires Led(log)
    ensures Cap(Cap(log) + [m]) == Cap(log + [m])
  {
    hide Cap, Latest;
    var rest := log[1..];
    var x := [log[0]] + Latest(rest, 64) + [m];
    CapIs(log);
    CapIs(log + [m]);
    CapIs(x);
    LatestStep(rest, m, 64);
    assert (log + [m])[1..] == rest + [m];
    assert x[0] == log[0] && x[1..] == Latest(rest, 64) + [m];
  }

  lemma UnledStep(log: seq<Message>, m: Message)
    requires WellFormed(log) && !Led(log) && (log != [] ==> m.role != System)
    ensures Cap(Cap(log) + [m]) == Cap(log + [m])
  {
    if log == [] {
      assert Cap(log) == log;
    } else {
      hide Cap, Latest;
      var kept := Latest(log, 64);
      CapIs(log);
      CapIs(log + [m]);
      CapIs(kept + [m]);
      UnledTail(log);
      LatestStep(log, m, 64);
      assert (kept + [m])[0] == kept[0] && (log + [m])[0] == log[0];
    }
  }

  /** One truncation of the whole log is the same as truncating as one goes. */
  lemma CapStep(log: seq<Message>, m: Message)
    requires WellFormed(log) && (log != [] ==> m.role != System)
    ensures Cap(Cap(log) + [m]) == Cap(log + [m])
  {
    hide Cap;
    if Led(log) {
      LedStep(log, m);
    } else {
      UnledStep(log, m);
    }
  }

  /** What is left of a log without its system message never begins with one. */
  lemma UnledTail(log: seq<Message>)
    requires WellFormed(log) && log != []
    ensures !Led(log) ==> Latest(log, 64) != [] && !Led(Latest(log, 64))
  {}

  // ---- the client ------------------------------------------------------

  /** A send whose request is on the wire: its session, and the messages it sent. */
  datatype Pending = Pending(session: nat, body: seq<Message>)

  class OllamaClient {
    var histories: map<nat, seq<Message>>
    var nextId: nat
    /** Every message each session was ever given, uncapped. */
    ghost var logs: map<nat, seq<Message>>

    /** Each stored history is one truncation of that session's complete log. */
    ghost predicate Valid()
      reads this
    {
      && histories.Keys == logs.Keys
      && (forall s | s in histories :: s < nextId)
      && (forall s | s in logs :: logs[s] != [] && WellFormed(logs[s]) && histories[s] == Cap(logs[s]))
    }

    constructor ()
      ensures Valid() && histories == map[] && logs == map[]
    {
      histories, nextId, logs := map[], 0, map[];
    }

    /** The first half of a new session's send. An empty system prompt is no system prompt. */
    method StartNew(known: bool, system: string, prompt: string) returns (r: Option<Pending>)
      requires Valid()
      modifies this
      ensures Valid()
      ensures r.None? <==> !known
      ensures r.None? ==> logs == old(logs)
      ensures r.Some? ==>
                var s := r.value.session;
                && s !in old(logs) && logs == old(logs)[s := Opening(system, prompt)]
                && r.value.body == Cap(logs[s])
    {
      if !known {
        return None;
      }
      var id := nextId;
      nextId := nextId + 1;
      var history := [];
      if system != "" {
        history := history + [Message(System, system)];
      }
      history := history + [Message(User, prompt)];
      assert history == Opening(system, prompt);
      logs := logs[id := history];
      histories := histories[id := Cap(history)];
      return Some(Pending(id, histories[id]));
    }

    /** The first half of a send on an existing session; an unknown session is an error and changes nothing. */
    method StartResumed(known: bool, session: nat, prompt: string) returns (r: Option<Pending>)
      requires Valid()
      modifies this
      ensures Valid()
      ensures r.None? <==> !known || session !in old(logs)
      ensures r.None? ==> logs == old(logs) && histories == old(histories)
      ensures r.Some? ==>
                && r.value.session == session
                && logs == old(logs)[session := old(logs)[session] + [Message(User, prompt)]]
                && r.value.body == Cap(logs[session])
    {
      if !known || session !in histories {
        return None;
      }
      Append(session, Message(User, prompt));
      return Some(Pending(session, histories[session]));
    }

    /** The second half: a failure leaves the user message in place, a reply is appended. */
    method Finish(p: Pending, reply: Option<string>)
      requires Valid() && p.session in logs
      modifies this
      ensures Valid()
      ensures logs == match reply
                      case None => old(logs)
                      case Some(text) => old(logs)[p.session := old(logs)[p.session] + [Message(Assistant, text)]]
    {
      if reply.Some? {
        Append(p.session, Message(Assistant, reply.value));
      }
    }

    /** Append in place, then cap in place. */
    method Append(session: nat, m: Message)
      requires Valid() && session in logs && m.role != System
      modifies this`histories, this`logs
      ensures Valid()
      ensures logs == old(logs)[session := old(logs)[session] + [m]]
      ensures histories == old(histories)[session := Cap(logs[session])]
    {
      CapStep(logs[session], m);
      ghost var log := logs[session];
      var history := histories[session] + [m];
      assert WellFormed(log + [m]);
      logs := logs[session := log + [m]];
      histories := histories[session := Cap(history)];
    }
  }

  // ---- whole runs ------------------------------------------------------

  datatype Send =
    | New(system: string, prompt: string)
    | Resume(session: nat, prompt: string)
    | Reply(session: nat, text: string)
    | Fail(session: nat)

  /** A store of histories under an interleaving of half-sends; `cap` is applied after every append. */
  function Append(store: map<nat, seq<Message>>, s: nat, m: Message, cap: bool): map<nat, seq<Message>> {
    if s !in store then store else store[s := if cap then Cap(store[s] + [m]) else store[s] + [m]]
  }

  function Opening(system: string, prompt: string): seq<Message> {
    (if system != "" then [Message(System, system)] else []) + [Message(User, prompt)]
  }

  /** The run with capping at every append, or the complete logs without any. Sessions are numbered by event. */
  function RunSends(es: seq<Send>, cap: bool): map<nat, seq<Message>> {
    if es == [] then map[]
    else
      var n := |es| - 1;
      var store := RunSends(es[..n], cap);
      match es[n]
      case New(system, prompt) =>
        store[n := if cap then Cap(Opening(system, prompt)) else Opening(system, prompt)]
      case Resume(s, prompt) => Append(store, s, Message(User, prompt), cap)
      case Reply(s, text) => Append(store, s, Message(Assistant, text), cap)
      case Fail(_) => store
  }

  /** In every run of new, resumed, answered and failed sends, each stored history is one truncation of the
      session's complete log: the opening system message, if any, and the latest 64 messages. */
  lemma {:induction false} BoundedRefinesComplete(es: seq<Send>)
    ensures var stored, full := RunSends(es, true), RunSends(es, false);
            && stored.Keys == full.Keys
            && forall s | s in full :: full[s] != [] && WellFormed(full[s]) && stored[s] == Cap(full[s])
  {
    hide Cap;
    if es != [] {
      var n := |es| - 1;
      BoundedRefinesComplete(es[..n]);
      var full := RunSends(es[..n], false);
      match es[n]
      case New(_, _) =>
      case Resume(s, prompt) => if s in full { CapStep(full[s], Message(User, prompt)); }
      case Reply(s, text) => if s in full { CapStep(full[s], Message(Assistant, text)); }
      case Fail(_) =>
    }
  }

  /** What one truncation holds: a leading system message, and the latest 64 of the others. */
  lemma CapHolds(log: seq<Message>)
    ensures if log != [] && log[0].role == System then
              Cap(log) == [log[0]] + (if |log| <= 65 then log[1..] else log[|log| - 64..])
            else Cap(log) == if |log| <= 64 then log else log[|log| - 64..]
  {}

  /** A session opens with its system prompt, if it has one, and the user's message. */
  lemma OpeningIs(system: string, prompt: string)
    ensures Opening("", prompt) == [Message(User, prompt)]
    ensures system != "" ==> Opening(system, prompt) == [Message(System, system), Message(User, prompt)]
  {}
}
