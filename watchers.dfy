/**
 * Watcher registration and notification, shared by image animators and sound
 * holders. A watcher is identified by its identity; the callbacks it receives
 * are recorded, in delivery order, in a log of notices.
 */
module Watchers {

  /** Identity of a registered watcher object (ImageWatcher or SoundWatcher). */
  type Watcher = nat

  /** The two callbacks of the watcher interfaces. */
  datatype Event = SequenceEnded | SequenceLooped

  /** One callback delivered to one watcher. */
  datatype Notice = Notice(watcher: Watcher, event: Event)

  /** The watchers that appear in a log. */
  function Recipients(log: seq<Notice>): set<Watcher>
  {
    set i | 0 <= i < |log| :: log[i].watcher
  }

  /**
   * `log` delivers `e` exactly once to every watcher in `ws` and to nobody
   * else; the order among watchers is left open, as a set's iteration order is.
   */
  ghost predicate Fanout(log: seq<Notice>, ws: set<Watcher>, e: Event)
  {
    && (forall i | 0 <= i < |log| :: log[i].event == e)
    && (forall i, j | 0 <= i < j < |log| :: log[i].watcher != log[j].watcher)
    && Recipients(log) == ws
  }

  lemma RecipientsSnoc(log: seq<Notice>, n: Notice)
    ensures Recipients(log + [n]) == Recipients(log) + {n.watcher}
  {
    var log' := log + [n];
    forall w | w in Recipients(log') ensures w in Recipients(log) + {n.watcher} {
      var i :| 0 <= i < |log'| && log'[i].watcher == w;
      if i < |log| { assert log[i] == log'[i]; }
    }
    forall w | w in Recipients(log) ensures w in Recipients(log') {
      var i :| 0 <= i < |log| && log[i].watcher == w;
      assert log'[i] == log[i];
    }
    assert log'[|log|] == n;
  }

  /** A fan-out delivers exactly as many callbacks as there are watchers. */
  lemma {:induction false} FanoutSize(log: seq<Notice>, ws: set<Watcher>, e: Event)
    requires Fanout(log, ws, e)
    ensures |log| == |ws|
  {
    if log != [] {
      var k := |log| - 1;
      var init := log[..k];
      var w := log[k].watcher;
      assert log == init + [log[k]];
      RecipientsSnoc(init, log[k]);
      assert w !in Recipients(init);
      assert Recipients(init) == ws - {w};
      assert Fanout(init, ws - {w}, e) by {
        forall i, j | 0 <= i < j < |init| ensures init[i].watcher != init[j].watcher {
          assert init[i] == log[i] && init[j] == log[j];
        }
      }
      FanoutSize(init, ws - {w}, e);
    }
  }

  /** A fan-out to no watcher delivers nothing. */
  lemma FanoutToNobody(log: seq<Notice>, e: Event)
    requires Fanout(log, {}, e)
    ensures log == []
  {
    FanoutSize(log, {}, e);
  }

  /**
   * Calls the callback `e` on every watcher of `ws` once, iterating over the
   * set; returns the notices delivered.
   */
  method Broadcast(ws: set<Watcher>, e: Event) returns (log: seq<Notice>)
    ensures Fanout(log, ws, e)
  {
    log := [];
    var todo := ws;
    while todo != {}
      invariant todo <= ws
      invariant Fanout(log, ws - todo, e)
      decreases todo
    {
      var w :| w in todo;
      RecipientsSnoc(log, Notice(w, e));
      log := log + [Notice(w, e)];
      todo := todo - {w};
    }
  }
}
