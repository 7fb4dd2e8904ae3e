/**
 * Messages, sessions and the ordered session list: the title derived from the
 * text just sent, upsert by id (replace in place or put in front), the prefix
 * that is persisted and the prefix the history panel shows.
 */
module Sessions {
  import opened JsText
  import HtmlEscape
  import TimeLabels

  /** The `role` field of a message. The state only ever stores `User` and
    * `Assistant`; `Bot` is the name the page uses for assistant bubbles, and
    * the request window maps it to `Assistant`. */
  datatype Role = User | Assistant | Bot

  /** `{ role, content, time }`; `time` is the locale time string shown next to it. */
  datatype Message = Message(role: Role, content: JsString, time: JsString)

  /** `{ id, title, time, messages, topic }`; `time` is the save time in ms. */
  datatype Session = Session(id: JsString, title: JsString, time: int, messages: seq<Message>, topic: JsString)

  const TITLE_LENGTH: nat := 40
  // "..."
  const ELLIPSIS: JsString := [46, 46, 46]

  /** Entries kept by `saveSessions`. */
  const KEPT_SESSIONS: nat := 30
  /** Entries shown by `renderHistory`. */
  const SHOWN_SESSIONS: nat := 15

  // ---------------------------------------------------------------------------
  // Title
  // ---------------------------------------------------------------------------

  /** The title of a session: the text when it has at most 40 code units,
    * else its first 40 followed by "...". */
  function Title(text: JsString): (t: JsString)
    ensures |t| <= TITLE_LENGTH + |ELLIPSIS|
    ensures |text| <= TITLE_LENGTH ==> t == text
    ensures |text| > TITLE_LENGTH ==>
      (|t| == TITLE_LENGTH + |ELLIPSIS| && t[..TITLE_LENGTH] == text[..TITLE_LENGTH] && t[TITLE_LENGTH..] == ELLIPSIS)
  {
    if |text| > TITLE_LENGTH then text[..TITLE_LENGTH] + ELLIPSIS else text
  }

  /** A title is its own title: saving again under the title changes nothing. */
  lemma TitleIdempotent(text: JsString)
    ensures Title(Title(text)) == Title(text)
  {
    if |text| > TITLE_LENGTH {
      var t := Title(text);
      assert t[..TITLE_LENGTH] + ELLIPSIS == t;
    }
  }

  // ---------------------------------------------------------------------------
  // Ids
  // ---------------------------------------------------------------------------

  function Ids(ss: seq<Session>): set<JsString>
  {
    set s | s in ss :: s.id
  }

  predicate UniqueIds(ss: seq<Session>)
  {
    forall i, j :: 0 <= i < j < |ss| ==> ss[i].id != ss[j].id
  }

  /** `ss.findIndex(s => s.id === id)`: the first index holding id, or -1. */
  function FindIndex(ss: seq<Session>, id: JsString): (k: int)
    ensures -1 <= k < |ss|
    ensures k >= 0 ==> ss[k].id == id && forall j :: 0 <= j < k ==> ss[j].id != id
    ensures k < 0 <==> id !in Ids(ss)
  {
    if ss == [] then -1
    else if ss[0].id == id then 0
    else
      var k := FindIndex(ss[1..], id);
      assert Ids(ss) == {ss[0].id} + Ids(ss[1..]) by {
        assert ss == [ss[0]] + ss[1..];
      }
      if k < 0 then -1 else k + 1
  }

  // ---------------------------------------------------------------------------
  // Upsert
  // ---------------------------------------------------------------------------

  /** The list after saving `s`: an entry with the same id is replaced at its
    * index and nothing else moves; a new id is put at the front. */
  function Upsert(ss: seq<Session>, s: Session): (r: seq<Session>)
    ensures var k := FindIndex(ss, s.id);
      k >= 0 ==> |r| == |ss| && r[k] == s && forall j :: 0 <= j < |r| && j != k ==> r[j] == ss[j]
    ensures FindIndex(ss, s.id) < 0 ==> |r| == |ss| + 1 && r[0] == s && r[1..] == ss
  {
    var k := FindIndex(ss, s.id);
    if k >= 0 then ss[k := s] else [s] + ss
  }

  /** Saving never creates a second entry with the same id, and the ids on
    * the list are the old ones plus the saved one. */
  lemma UpsertKeepsIdsUnique(ss: seq<Session>, s: Session)
    requires UniqueIds(ss)
    ensures UniqueIds(Upsert(ss, s))
    ensures Ids(Upsert(ss, s)) == Ids(ss) + {s.id}
  {
    var r := Upsert(ss, s);
    var k := FindIndex(ss, s.id);
    if k >= 0 {
      forall i | 0 <= i < |r| ensures r[i].id == ss[i].id { }
      forall x | x in Ids(r) ensures x in Ids(ss) {
        var i :| 0 <= i < |r| && r[i].id == x;
        assert ss[i] in ss;
      }
      forall x | x in Ids(ss) ensures x in Ids(r) {
        var i :| 0 <= i < |ss| && ss[i].id == x;
        assert r[i] in r;
      }
    } else {
      assert r == [s] + ss;
      forall i, j | 0 <= i < j < |r| ensures r[i].id != r[j].id {
        if i == 0 {
          assert r[j] == ss[j - 1];
          assert ss[j - 1] in ss;
        } else {
          assert r[i] == ss[i - 1] && r[j] == ss[j - 1];
        }
      }
      forall x | x in Ids(r) ensures x in Ids(ss) + {s.id} {
        var t :| t in r && t.id == x;
        if t != s { assert t in ss; }
      }
    }
  }

  /** Saving the same id twice is saving the second session once: the entry
    * keeps its place and the list does not grow. */
  lemma UpsertSameIdTwice(ss: seq<Session>, a: Session, b: Session)
    requires a.id == b.id
    ensures Upsert(Upsert(ss, a), b) == Upsert(ss, b)
  {
    var k := FindIndex(ss, a.id);
    var r1 := Upsert(ss, a);
    if k >= 0 {
      assert FindIndex(r1, b.id) == k by {
        assert r1[k].id == b.id;
      }
    } else {
      assert FindIndex(r1, b.id) == 0;
      assert [b] + ss == r1[0 := b];
    }
  }

  // ---------------------------------------------------------------------------
  // Persistence and the history panel
  // ---------------------------------------------------------------------------

  /** `chatSessions.slice(0, 30)`: what `saveSessions` writes. */
  function Retained(ss: seq<Session>): (r: seq<Session>)
    ensures |r| == if |ss| < KEPT_SESSIONS then |ss| else KEPT_SESSIONS
    ensures r <= ss
  {
    if |ss| < KEPT_SESSIONS then ss else ss[..KEPT_SESSIONS]
  }

  /** The persisted prefix of a list with unique ids has unique ids. */
  lemma RetainedKeepsIdsUnique(ss: seq<Session>)
    requires UniqueIds(ss)
    ensures UniqueIds(Retained(ss))
  {
    var r := Retained(ss);
    forall i, j | 0 <= i < j < |r| ensures r[i].id != r[j].id {
      assert r[i] == ss[i] && r[j] == ss[j];
    }
  }

  /** One entry of the history panel. */
  datatype HistoryItem = HistoryItem(id: JsString, title: JsString, when: JsString, active: bool)

  function HistoryEntry(s: Session, i: nat, now: int): (item: HistoryItem)
    ensures HtmlEscape.IsEscaped(item.title) && HtmlEscape.Unescape(item.title) == s.title
  {
    HtmlEscape.EscapeHtmlIsEscaped(s.title);
    HtmlEscape.UnescapeEscapeHtml(s.title);
    HistoryItem(s.id, HtmlEscape.EscapeHtml(s.title), TimeLabels.FormatTime(s.time, now), i == 0)
  }

  /** `renderHistory`: the first 15 sessions in list order, the first one
    * marked active; each title is markup-safe and reads back as the stored
    * title. An empty list shows no entry. */
  function HistoryView(ss: seq<Session>, now: int): (items: seq<HistoryItem>)
    ensures |items| == if |ss| < SHOWN_SESSIONS then |ss| else SHOWN_SESSIONS
    ensures forall i :: 0 <= i < |items| ==>
      && items[i].id == ss[i].id
      && HtmlEscape.IsEscaped(items[i].title)
      && HtmlEscape.Unescape(items[i].title) == ss[i].title
      && items[i].when == TimeLabels.FormatTime(ss[i].time, now)
      && (items[i].active <==> i == 0)
  {
    var n := if |ss| < SHOWN_SESSIONS then |ss| else SHOWN_SESSIONS;
    seq(n, i requires 0 <= i < n => HistoryEntry(ss[i], i, now))
  }

  // ---------------------------------------------------------------------------
  // A run of saves
  // ---------------------------------------------------------------------------

  function Reversed<T>(xs: seq<T>): (r: seq<T>)
    ensures |r| == |xs|
  {
    if xs == [] then [] else Reversed(xs[1..]) + [xs[0]]
  }

  lemma {:induction false} ReversedAppend<T>(a: seq<T>, b: seq<T>)
    ensures Reversed(a + b) == Reversed(b) + Reversed(a)
  {
    if a == [] {
      assert a + b == b;
    } else {
      assert (a + b)[1..] == a[1..] + b;
      ReversedAppend(a[1..], b);
    }
  }

  /** The list after saving each of xs in turn. */
  function UpsertAll(ss: seq<Session>, xs: seq<Session>): seq<Session>
    decreases |xs|
  {
    if xs == [] then ss else UpsertAll(Upsert(ss, xs[0]), xs[1..])
  }

  /** Saving sessions with new, distinct ids stacks them newest first. */
  lemma {:induction false} UpsertAllFresh(ss: seq<Session>, xs: seq<Session>)
    requires UniqueIds(xs)
    requires forall i :: 0 <= i < |xs| ==> xs[i].id !in Ids(ss)
    ensures UpsertAll(ss, xs) == Reversed(xs) + ss
    decreases |xs|
  {
    if xs != [] {
      var x, rest := xs[0], xs[1..];
      var ss' := [x] + ss;
      assert UpsertAll(ss, xs) == UpsertAll(ss', rest) by {
        assert FindIndex(ss, x.id) < 0;
      }
      assert forall i :: 0 <= i < |rest| ==> rest[i].id !in Ids(ss') by {
        IdsCons(x, ss);
        forall i | 0 <= i < |rest| ensures rest[i].id !in Ids(ss') {
          assert rest[i] == xs[i + 1];
        }
      }
      assert UniqueIds(rest) by {
        forall i, j | 0 <= i < j < |rest| ensures rest[i].id != rest[j].id {
          assert rest[i] == xs[i + 1] && rest[j] == xs[j + 1];
        }
      }
      UpsertAllFresh(ss', rest);
      assert xs == [x] + rest;
      ReversedCons(x, rest, ss);
    }
  }

  lemma ReversedCons(x: Session, rest: seq<Session>, ss: seq<Session>)
    ensures Reversed([x] + rest) + ss == Reversed(rest) + ([x] + ss)
  {
    assert ([x] + rest)[1..] == rest;
  }

  lemma IdsCons(s: Session, ss: seq<Session>)
    ensures Ids([s] + ss) == {s.id} + Ids(ss)
  {
    forall x | x in Ids([s] + ss) ensures x in {s.id} + Ids(ss) {
      var t :| t in [s] + ss && t.id == x;
      if t != s { assert t in ss; }
    }
  }

  /** After saving distinct new sessions into an empty list, storage holds
    * the 30 most recent, newest first (all of them when there are fewer). */
  lemma OldestSessionsEvicted(xs: seq<Session>)
    requires UniqueIds(xs)
    ensures Retained(UpsertAll([], xs)) ==
      Reversed(if |xs| > KEPT_SESSIONS then xs[|xs| - KEPT_SESSIONS..] else xs)
  {
    UpsertAllFresh([], xs);
    assert Reversed(xs) + [] == Reversed(xs);
    RetainedReversed(xs);
  }

  /** The stored prefix of a list built newest first is the reversal of the
    * 30 newest entries. */
  lemma RetainedReversed(xs: seq<Session>)
    ensures Retained(Reversed(xs)) ==
      Reversed(if |xs| > KEPT_SESSIONS then xs[|xs| - KEPT_SESSIONS..] else xs)
  {
    if |xs| > KEPT_SESSIONS {
      var m := |xs| - KEPT_SESSIONS;
      var older, newer := xs[..m], xs[m..];
      assert xs == older + newer;
      ReversedAppend(older, newer);
      PrefixOfAppend(Reversed(newer), Reversed(older));
    }
  }

  /** With 31 saves, the first session saved is the one storage no longer holds. */
  lemma FirstSessionEvicted(xs: seq<Session>)
    requires UniqueIds(xs) && |xs| == KEPT_SESSIONS + 1
    ensures xs[0].id !in Ids(Retained(UpsertAll([], xs)))
  {
    OldestSessionsEvicted(xs);
    var tail := xs[1..];
    ReversedElements(tail);
    forall t | t in Reversed(tail) ensures t.id != xs[0].id {
      var j :| 0 <= j < |tail| && tail[j] == t;
      assert xs[j + 1] == t;
    }
  }

  lemma PrefixOfAppend<T>(a: seq<T>, b: seq<T>)
    ensures (a + b)[..|a|] == a
  {
  }

  lemma {:induction false} ReversedElements<T>(xs: seq<T>)
    ensures forall t :: t in Reversed(xs) ==> t in xs
  {
    if xs != [] {
      ReversedElements(xs[1..]);
    }
  }
}
