/** The registry of active chat logs of client/hooks/chatlog.rs: instance id ->
    that instance's chat history, and one pass of the loop that forwards every
    history's lines to the front end. */
module ChatLogs {
  import opened Wrappers
  import opened Uuids

  /** A chat history shared between an instance's task and the registry
      (`Arc<Mutex<Vec<String>>>`). */
  class ChatHistory {
    var lines: seq<string>
    /** The instance whose task made this history. */
    ghost const owner: Uuid

    constructor (ghost owner: Uuid)
      ensures lines == [] && this.owner == owner
    {
      lines := [];
      this.owner := owner;
    }

    /** `Vec::push`. */
    method Push(line: string)
      modifies this
      ensures lines == old(lines) + [line]
    {
      lines := lines + [line];
    }

    /** `Vec::pop`: the last line, if any. */
    method Pop() returns (line: Option<string>)
      modifies this
      ensures old(lines) == [] ==> line.None? && lines == []
      ensures old(lines) != [] ==> line == Some(old(lines)[|old(lines)| - 1]) && lines == old(lines)[..|old(lines)| - 1]
    {
      if lines == [] {
        return None;
      }
      line := Some(lines[|lines| - 1]);
      lines := lines[..|lines| - 1];
    }
  }

  /** `s` read from its end. */
  function Reverse(s: seq<string>): (r: seq<string>)
    ensures |r| == |s|
  {
    if s == [] then [] else [s[|s| - 1]] + Reverse(s[..|s| - 1])
  }

  lemma {:induction false} ReverseAt(s: seq<string>, i: nat)
    requires i < |s|
    ensures Reverse(s)[i] == s[|s| - 1 - i]
  {
    if i > 0 {
      ReverseAt(s[..|s| - 1], i - 1);
    }
  }

  /** The lines of `sent` addressed to `key`, in sending order. */
  function SentTo(sent: seq<(Uuid, string)>, key: Uuid): seq<string> {
    if sent == [] then []
    else SentTo(sent[..|sent| - 1], key) + (if sent[|sent| - 1].0 == key then [sent[|sent| - 1].1] else [])
  }

  /** `lines`, each addressed to `key`. */
  function Tagged(key: Uuid, lines: seq<string>): (r: seq<(Uuid, string)>)
    ensures |r| == |lines|
    ensures forall i :: 0 <= i < |lines| ==> r[i] == (key, lines[i])
  {
    seq(|lines|, i requires 0 <= i < |lines| => (key, lines[i]))
  }

  lemma {:induction false} SentToConcat(a: seq<(Uuid, string)>, b: seq<(Uuid, string)>, key: Uuid)
    ensures SentTo(a + b, key) == SentTo(a, key) + SentTo(b, key)
    decreases |b|
  {
    if b != [] {
      var b' := b[..|b| - 1];
      var x := b[|b| - 1];
      var part := if x.0 == key then [x.1] else [];
      assert (a + b)[..|a + b| - 1] == a + b';
      assert (a + b)[|a + b| - 1] == x;
      assert SentTo(a + b, key) == SentTo(a + b', key) + part;
      assert SentTo(b, key) == SentTo(b', key) + part;
      SentToConcat(a, b', key);
    } else {
      assert a + b == a;
    }
  }

  /** Of lines all addressed to one key, that key receives all of them and no
      other key any. */
  lemma {:induction false} SentToTagged(owner: Uuid, lines: seq<string>, key: Uuid)
    ensures SentTo(Tagged(owner, lines), key) == if key == owner then lines else []
    decreases |lines|
  {
    if lines != [] {
      var init := lines[..|lines| - 1];
      assert Tagged(owner, lines)[..|lines| - 1] == Tagged(owner, init);
      SentToTagged(owner, init, key);
    }
  }

  /** Appending lines addressed to `owner` extends only the owner's share. */
  lemma SendAll(sent: seq<(Uuid, string)>, owner: Uuid, lines: seq<string>)
    ensures forall key :: SentTo(sent + Tagged(owner, lines), key) == SentTo(sent, key) + (if key == owner then lines else [])
  {
    forall key
      ensures SentTo(sent + Tagged(owner, lines), key) == SentTo(sent, key) + (if key == owner then lines else [])
    {
      SentToConcat(sent, Tagged(owner, lines), key);
      SentToTagged(owner, lines, key);
    }
  }

  /** Each key in `done` has been sent its history of `before` read from the
      end; every other key nothing. */
  ghost predicate Shares(sent: seq<(Uuid, string)>, done: set<Uuid>, before: map<Uuid, seq<string>>)
    requires done <= before.Keys
  {
    forall k :: SentTo(sent, k) == if k in done then Reverse(before[k]) else []
  }

  lemma FlushStep(sent: seq<(Uuid, string)>, done: set<Uuid>, before: map<Uuid, seq<string>>, key: Uuid)
    requires done <= before.Keys && key in before && key !in done
    requires Shares(sent, done, before)
    ensures Shares(sent + Tagged(key, Reverse(before[key])), done + {key}, before)
  {
    var drained := Tagged(key, Reverse(before[key]));
    forall k
      ensures SentTo(sent + drained, k) == if k in done + {key} then Reverse(before[k]) else []
    {
      SentToConcat(sent, drained, k);
      SentToTagged(key, Reverse(before[key]), k);
      assert SentTo(sent, k) == if k in done then Reverse(before[k]) else [];
    }
  }

  /** The inner `while let Some(message) = history.pop()` loop: pops `history`
      until it is empty, returning the popped lines addressed to `key`. */
  method DrainHistory(key: Uuid, history: ChatHistory) returns (sent: seq<(Uuid, string)>)
    modifies history
    ensures history.lines == []
    ensures sent == Tagged(key, Reverse(old(history.lines)))
  {
    sent := [];
    var line := history.Pop();
    while line.Some?
      invariant line.Some? ==> sent + [(key, line.value)] + Tagged(key, Reverse(history.lines)) == Tagged(key, Reverse(old(history.lines)))
      invariant line.None? ==> history.lines == [] && sent == Tagged(key, Reverse(old(history.lines)))
      decreases |history.lines| + (if line.Some? then 1 else 0)
    {
      sent := sent + [(key, line.value)];
      line := history.Pop();
    }
  }

  /** `ACTIVE_LOGS`. */
  class ChatLog {
    var active: map<Uuid, ChatHistory>

    /** Each instance's task makes its own history and registers it under the
        instance's key, so a history is registered under one key only. */
    ghost predicate Valid()
      reads this, active.Values
    {
      forall k :: k in active ==> active[k].owner == k
    }

    constructor ()
      ensures Valid() && active == map[]
    {
      active := map[];
    }

    /** `set_active`: registers `history` under `key` unless the key is already
        registered, in which case the registered history is kept. */
    method SetActive(key: Uuid, history: ChatHistory)
      requires Valid()
      requires history.owner == key
      modifies this
      ensures Valid()
      ensures key in old(active) ==> active == old(active)
      ensures key !in old(active) ==> active == old(active)[key := history]
    {
      if key !in active {
        active := active[key := history];
      }
    }

    /** `remove_active`. */
    method RemoveActive(key: Uuid)
      requires Valid()
      modifies this
      ensures Valid()
      ensures active == old(active) - {key}
    {
      active := active - {key};
    }

    /** One pass of the flush loop of `start_thread`: every registered history is
        popped until empty, and each popped line is sent to the front end under
        its key (`sent`). Keys are visited in the map's own, unspecified order. */
    method FlushPass() returns (sent: seq<(Uuid, string)>)
      requires Valid()
      modifies active.Values
      ensures active == old(active)
      ensures forall k :: k in active ==> active[k].lines == []
      ensures forall k :: SentTo(sent, k) == if k in active then Reverse(old(active[k].lines)) else []
    {
      ghost var before := map k | k in active :: active[k].lines;
      var done: set<Uuid> := {};
      sent := [];
      while done != active.Keys
        invariant done <= active.Keys
        invariant forall k :: k in active ==> active[k].lines == if k in done then [] else before[k]
        invariant Shares(sent, done, before)
        decreases active.Keys - done
      {
        var key :| key in active && key !in done;
        var history := active[key];
        assert history.lines == before[key];
        var drained := DrainHistory(key, history);
        assert drained == Tagged(key, Reverse(before[key]));
        FlushStep(sent, done, before, key);
        forall k | k in active
          ensures active[k].lines == if k in done + {key} then [] else before[k]
        {
          if k != key {
            assert active[k] != history;
          }
        }
        sent := sent + drained;
        done := done + {key};
      }
    }
  }
}
