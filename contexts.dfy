/** `messageContexts`: for each chat, the key of the last command message,
    so that replies from the data-entry service can quote it, and the time
    it was stored, so that entries older than a day can be swept. */
module Contexts {
  import opened Options

  /** 24 hours, in milliseconds. */
  const Day: int := 24 * 60 * 60 * 1000

  datatype Context = Context(messageKey: string, timestamp: int)

  /** The entries a sweep at time `now` keeps: those stored no earlier
      than a day before `now`. */
  function Swept(m: map<string, Context>, now: int): (r: map<string, Context>)
    ensures r.Keys <= m.Keys
    ensures forall k :: k in r ==> r[k] == m[k]
  {
    map k | k in m && !(m[k].timestamp < now - Day) :: m[k]
  }

  /** An entry survives a sweep exactly when it is at most a day old. */
  lemma SweptKeepsRecent(m: map<string, Context>, now: int, k: string)
    requires k in m
    ensures k in Swept(m, now) <==> now <= m[k].timestamp + Day
  {
  }

  /** A second sweep at the same time removes nothing more. */
  lemma SweptIdempotent(m: map<string, Context>, now: int)
    ensures Swept(Swept(m, now), now) == Swept(m, now)
  {
  }

  /** Sweeping later keeps no more than sweeping earlier. */
  lemma SweptMonotone(m: map<string, Context>, t1: int, t2: int)
    requires t1 <= t2
    ensures Swept(m, t2).Keys <= Swept(m, t1).Keys
  {
  }

  class ContextStore {
    var contexts: map<string, Context>

    constructor()
      ensures contexts == map[]
    {
      contexts := map[];
    }

    /** `messageContexts.set(chatId, ...)` when a command arrives: the
        chat's entry is replaced and the others stay. */
    method Remember(chatId: string, messageKey: string, now: int)
      modifies this
      ensures contexts == old(contexts)[chatId := Context(messageKey, now)]
    {
      contexts := contexts[chatId := Context(messageKey, now)];
    }

    /** The message a reply to `chatId` quotes, if the chat has a context. */
    function QuotedKey(chatId: string): (key: Option<string>)
      reads this
      ensures key.Some? <==> chatId in contexts
      ensures key.Some? ==> key.value == contexts[chatId].messageKey
    {
      if chatId in contexts then Some(contexts[chatId].messageKey) else None
    }

    /** `cleanupOldContexts` and the sweep after a status reply: delete, while
        iterating, every entry older than a day, and count them. */
    method Sweep(now: int) returns (cleanedCount: nat)
      modifies this
      ensures contexts == Swept(old(contexts), now)
      ensures cleanedCount == |old(contexts).Keys| - |contexts.Keys|
    {
      var cutoff := now - Day;
      cleanedCount := 0;
      var pending := contexts.Keys;
      ghost var start := contexts;
      while pending != {}
        invariant pending <= start.Keys
        invariant contexts.Keys <= start.Keys
        invariant forall k :: k in pending ==> k in contexts && contexts[k] == start[k]
        invariant forall k :: k in start && k !in pending ==>
                    (k in contexts <==> !(start[k].timestamp < cutoff))
        invariant forall k :: k in contexts ==> contexts[k] == start[k]
        invariant cleanedCount == |start.Keys| - |contexts.Keys|
        decreases |pending|
      {
        var key :| key in pending;
        pending := pending - {key};
        if contexts[key].timestamp < cutoff {
          ghost var before := contexts;
          contexts := map k | k in contexts && k != key :: contexts[k];
          assert contexts.Keys == before.Keys - {key};
          cleanedCount := cleanedCount + 1;
        }
      }
      assert contexts == Swept(start, now);
    }

    /** The clear-context route: one chat's entry when a chat id is given,
        every entry otherwise. */
    method ClearContext(chatId: string)
      modifies this
      ensures chatId != "" ==> contexts == old(contexts) - {chatId}
      ensures chatId == "" ==> contexts == map[]
    {
      if chatId != "" {
        contexts := contexts - {chatId};
      } else {
        contexts := map[];
      }
    }
  }
}
