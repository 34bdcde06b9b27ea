/** The change-query cache in front of the store: what a query is answered without it, and which queries share
    a key. The SHA-256 of the key text is modelled by the text itself. */
module QueryCache {
  import opened Text
  import opened Clock
  import opened Keyset
  import opened CloudEvents
  import opened Store
  import opened Subjects

  /** The part of a change query that selects events. */
  datatype EventQuery = EventQuery(subject: Subject, from: int, to: int, text: string)

  // The uncached answer.

  function TimelineFor(q: EventQuery): TimelineQuery {
    TimelineQuery(q.subject.app, q.subject.cluster, q.subject.environment, q.from, q.to, "", "", "", "", true, 500,
                  Blank)
  }

  predicate EventMatches(e: StoredEvent, text: string) {
    Contains(Lower(e.id), text) || Contains(Lower(e.source), text) || Contains(Lower(e.typ), text) ||
    Contains(Lower(e.subject), text) ||
    (exists k :: k in e.ext && e.ext[k].Str? && Contains(Lower(e.ext[k].s), text)) ||
    Contains(Lower(e.data.raw), text)
  }

  ghost function TextFilter(events: seq<StoredEvent>, text: string): seq<StoredEvent> {
    if events == [] then []
    else
      TextFilter(events[..|events| - 1], text)
      + (if EventMatches(events[|events| - 1], Lower(Trim(text))) then [events[|events| - 1]] else [])
  }

  /** What a query of the store at `db` answers: the first 500 matching events, then the text filter. */
  ghost function Fresh(db: Db, q: EventQuery): seq<StoredEvent>
    requires WellFormed(db)
  {
    var items := Timeline(db, TimelineFor(q)).items;
    if Trim(q.text) != "" then TextFilter(items, q.text) else items
  }

  // The same, by the fields of the rows.

  /** The row is in the query's window and of its subject. */
  predicate Asked(e: StoredEvent, q: EventQuery) {
    && (q.from != 0 ==> q.from <= e.time) && (q.to != 0 ==> e.time <= q.to)
    && (q.subject.app != "" ==>
          && e.subject == q.subject.app
          && (q.subject.environment != "" ==> ExtensionString(e.ext, "namespace") == q.subject.environment)
          && (q.subject.cluster != "" ==> ExtensionString(e.ext, "cluster") == q.subject.cluster))
  }

  lemma MatchesAsked(e: StoredEvent, q: EventQuery)
    ensures Matches(e, TimelineFor(q)) <==> Asked(e, q)
  {
    hide ExtensionString, ExtensionBool;
  }

  /** Without a text the answer is rows in the window and of the subject, oldest first and by ID within an instant:
      all of them if they are at most 500, and otherwise the 500 that come first. */
  lemma FreshRows(db: Db, q: EventQuery)
    requires WellFormed(db) && Trim(q.text) == ""
    ensures var items := Fresh(db, q);
            && |items| <= 500
            && (forall i, j :: 0 <= i < j < |items| ==> Precedes(items[i], items[j].time, items[j].id))
            && (forall e :: e in items ==> e.id in db && db[e.id] == e && Asked(e, q))
            && forall id :: id in db && Asked(db[id], q) && db[id] !in items ==>
                 |items| == 500 && forall e :: e in items ==> Precedes(e, db[id].time, id)
  {
    PageMeans(db, TimelineFor(q));
    forall e ensures Matches(e, TimelineFor(q)) <==> Asked(e, q) { MatchesAsked(e, q); }
    hide Matches, Asked, Timeline, ValidStored, Less;
    var page := Timeline(db, TimelineFor(q));
    forall id | id in db && Asked(db[id], q) && db[id] !in page.items
      ensures |page.items| == 500 && forall e :: e in page.items ==> Precedes(e, db[id].time, id)
    {
      var last := page.items[499];
      assert Precedes(last, db[id].time, id) by { LastHasTime(db, last, page.nextCursor); }
      forall i | 0 <= i < 500 ensures Precedes(page.items[i], db[id].time, id) {
        if i < 499 { PrecedesOn(page.items[i], last, db[id].time, id); }
      }
    }
  }

  lemma LastHasTime(db: Db, last: StoredEvent, cursor: CursorText)
    requires WellFormed(db) && last.id in db && db[last.id] == last && cursor == Encoded(last.time, last.id)
    ensures forall e :: Follows(e, cursor) ==> Precedes(last, e.time, e.id)
  {
  }

  lemma PrecedesOn(a: StoredEvent, b: StoredEvent, time: int, id: string)
    requires Precedes(a, b.time, b.id) && Precedes(b, time, id)
    ensures Precedes(a, time, id)
  {
    if a.time == b.time == time { LessTransitive(a.id, b.id, id); }
  }

  /** The text occurs, in any case, in the row's ID, source, type, subject, raw data or a text extension. */
  ghost predicate HasText(e: StoredEvent, text: string) {
    || (exists s :: s in [e.id, e.source, e.typ, e.subject, e.data.raw] && Contains(Lower(s), text))
    || exists k, s :: Lookup(e.ext, k) == Some(Str(s)) && Contains(Lower(s), text)
  }

  lemma EventMatchesIff(e: StoredEvent, text: string)
    ensures EventMatches(e, text) <==> HasText(e, text)
  {
    hide Contains, Lower;
    var fields := [e.id, e.source, e.typ, e.subject, e.data.raw];
    assert fields[0] in fields && fields[1] in fields && fields[2] in fields;
    assert fields[3] in fields && fields[4] in fields;
    if k :| k in e.ext && e.ext[k].Str? && Contains(Lower(e.ext[k].s), text) {
      assert Lookup(e.ext, k) == Some(Str(e.ext[k].s));
    }
  }

  ghost predicate InOrder(items: seq<StoredEvent>) {
    forall i, j :: 0 <= i < j < |items| ==> Precedes(items[i], items[j].time, items[j].id)
  }

  /** With a text the answer is what of those rows has it, in the same order. */
  lemma FreshWithText(db: Db, q: EventQuery)
    requires WellFormed(db) && Trim(q.text) != ""
    ensures var all, items := Fresh(db, q.(text := "")), Fresh(db, q);
            InOrder(items) && forall e :: e in items <==> e in all && HasText(e, Lower(Trim(q.text)))
  {
    var all := Timeline(db, TimelineFor(q)).items;
    FreshParts(db, q);
    FreshRows(db, q.(text := ""));
    hide HasText, Timeline, Trim, Lower, Asked, TextFilter, Fresh, Precedes;
    FilteredHas(all, q.text);
  }

  lemma FreshParts(db: Db, q: EventQuery)
    requires WellFormed(db) && Trim(q.text) != ""
    ensures var all := Timeline(db, TimelineFor(q)).items;
            Trim("") == "" && Fresh(db, q.(text := "")) == all && Fresh(db, q) == TextFilter(all, q.text)
  {
    assert Trim("") == "";
    assert TimelineFor(q.(text := "")) == TimelineFor(q);
    hide Timeline, Trim, TextFilter;
  }

  lemma {:induction false} FilteredHas(events: seq<StoredEvent>, text: string)
    requires InOrder(events)
    ensures forall e :: e in TextFilter(events, text) <==> e in events && HasText(e, Lower(Trim(text)))
    ensures InOrder(TextFilter(events, text))
  {
    hide HasText, EventMatches, Precedes, Trim, Lower;
    if events != [] {
      var init, last := events[..|events| - 1], events[|events| - 1];
      FilteredHas(init, text);
      EventMatchesIff(last, Lower(Trim(text)));
      LastOfOrdered(init, last, events);
      OrderedOnEnd(TextFilter(init, text), init, last);
    }
  }

  lemma LastOfOrdered(init: seq<StoredEvent>, last: StoredEvent, events: seq<StoredEvent>)
    requires events == init + [last] && InOrder(events)
    ensures forall e :: e in init ==> Precedes(e, last.time, last.id)
    ensures forall e :: e in events <==> e in init || e == last
  {
    hide Precedes;
    forall e | e in init ensures Precedes(e, last.time, last.id) {
      var i :| 0 <= i < |init| && init[i] == e;
      assert events[i] == e && events[|init|] == last;
    }
  }

  lemma OrderedOnEnd(some: seq<StoredEvent>, init: seq<StoredEvent>, last: StoredEvent)
    requires InOrder(some) && forall e :: e in some ==> e in init
    requires forall e :: e in init ==> Precedes(e, last.time, last.id)
    ensures InOrder(some + [last])
  {
    hide Precedes;
    assert forall i :: 0 <= i < |some| ==> some[i] in init;
  }

  // Keys.

  function SubjectText(s: Subject): string {
    s.app + ['|'] + (s.environment + ['|'] + s.cluster)
  }

  function CacheKey(q: EventQuery): string {
    q.subject.app + ['|'] + (q.subject.environment + ['|'] + (q.subject.cluster + ['|'] +
      (Decimal(UnixNano(q.from)) + ['|'] + (Decimal(UnixNano(q.to)) + ['|'] + Trim(q.text)))))
  }

  predicate PipeFree(s: Subject) {
    '|' !in s.app && '|' !in s.environment && '|' !in s.cluster
  }

  /** Queries whose key says everything about them. */
  predicate Keyable(q: EventQuery) {
    PipeFree(q.subject) && Representable(q.from) && Representable(q.to)
  }

  /** The key is injective on keyable queries, up to blanks around the text. */
  lemma KeyInjective(a: EventQuery, b: EventQuery)
    requires Keyable(a) && Keyable(b) && CacheKey(a) == CacheKey(b)
    ensures a.subject == b.subject && a.from == b.from && a.to == b.to && Trim(a.text) == Trim(b.text)
  {
    hide Trim, Decimal, UnixNano, Representable;
    var ta, tb := Decimal(UnixNano(a.to)) + ['|'] + Trim(a.text), Decimal(UnixNano(b.to)) + ['|'] + Trim(b.text);
    var fa, fb := Decimal(UnixNano(a.from)) + ['|'] + ta, Decimal(UnixNano(b.from)) + ['|'] + tb;
    var ca, cb := a.subject.cluster + ['|'] + fa, b.subject.cluster + ['|'] + fb;
    SplitUnique('|', a.subject.app, b.subject.app, a.subject.environment + ['|'] + ca,
                b.subject.environment + ['|'] + cb);
    SplitUnique('|', a.subject.environment, b.subject.environment, ca, cb);
    SplitUnique('|', a.subject.cluster, b.subject.cluster, fa, fb);
    SplitUnique('|', Decimal(UnixNano(a.from)), Decimal(UnixNano(b.from)), ta, tb);
    SplitUnique('|', Decimal(UnixNano(a.to)), Decimal(UnixNano(b.to)), Trim(a.text), Trim(b.text));
    DecimalInjective(UnixNano(a.from), UnixNano(b.from));
    DecimalInjective(UnixNano(a.to), UnixNano(b.to));
    UnixNanoCollides(a.from, b.from);
    UnixNanoCollides(a.to, b.to);
  }

  lemma SameKeySameAnswer(db: Db, a: EventQuery, b: EventQuery)
    requires WellFormed(db) && Keyable(a) && Keyable(b) && CacheKey(a) == CacheKey(b)
    ensures Fresh(db, a) == Fresh(db, b)
  {
    KeyInjective(a, b);
    hide Keyable, CacheKey, Timeline;
    SameTextFilter(Timeline(db, TimelineFor(a)).items, a.text, b.text);
  }

  lemma {:induction false} SameTextFilter(events: seq<StoredEvent>, s: string, t: string)
    requires Trim(s) == Trim(t)
    ensures TextFilter(events, s) == TextFilter(events, t)
  {
    hide EventMatches;
    if events != [] { SameTextFilter(events[..|events| - 1], s, t); }
  }

  function Pipes(s: string): nat { multiset(s)['|'] }

  lemma PipesOf(s: Subject)
    ensures Pipes(SubjectText(s)) == 2 + Pipes(s.app) + Pipes(s.environment) + Pipes(s.cluster)
    ensures PipeFree(s) <==> Pipes(s.app) + Pipes(s.environment) + Pipes(s.cluster) == 0
  {
    assert forall t: string :: '|' in t <==> '|' in multiset(t);
  }

  /** A pipe where a respelling can reach it: anywhere before the colons of the cluster, whose place in the
      text every subject a request carries leaves alone. */
  predicate Ambiguous(s: Subject) {
    '|' in s.app || '|' in s.environment || '|' in UpTo(s.cluster, ':')
  }

  /** For a fixed window and text, the subject of a request shares its key with that of another request exactly
      when a pipe stands in its application, in its environment, or in its cluster before the first colon. */
  lemma SubjectKeySharedIff(q: EventQuery)
    requires Receivable(q.subject)
    ensures (exists s: Subject :: s != q.subject && Receivable(s) && CacheKey(q.(subject := s)) == CacheKey(q)) <==>
              Ambiguous(q.subject)
  {
    hide CacheKey, SubjectText, UpTo;
    if Ambiguous(q.subject) {
      var other := Respelled(q.subject);
      SubjectInKey(q, other);
    } else {
      forall s: Subject | Receivable(s) && CacheKey(q.(subject := s)) == CacheKey(q) ensures s == q.subject {
        SubjectInKey(q, s);
        ReadOneWay(q.subject, s);
      }
    }
  }

  function Head(s: Subject): Subject { s.(cluster := UpTo(s.cluster, ':')) }

  lemma HeadOfText(s: Subject)
    requires ':' !in s.app && ':' !in s.environment
    ensures UpTo(SubjectText(s), ':') == SubjectText(Head(s))
  {
    var t, h := SubjectText(s), SubjectText(Head(s));
    assert h <= t && ':' !in h;
    if ':' in s.cluster {
      CutHere(t, ':', |h|);
    } else {
      assert UpTo(s.cluster, ':') == s.cluster;
      assert UpTo(t, ':') == t;
    }
  }

  lemma ReadOneWay(s: Subject, s': Subject)
    requires Receivable(s) && Receivable(s') && !Ambiguous(s) && SubjectText(s) == SubjectText(s')
    ensures s' == s
  {
    hide UpTo, Pipes, IsSpace;
    HeadOfText(s);
    HeadOfText(s');
    SameHead(Head(s), Head(s'));
    SamePrefix(s.app + ['|'], s.environment + ['|'] + s.cluster, s'.environment + ['|'] + s'.cluster);
    SamePrefix(s.environment + ['|'], s.cluster, s'.cluster);
  }

  /** Texts with two pipes have one subject. */
  lemma SameHead(s: Subject, s': Subject)
    requires PipeFree(s) && SubjectText(s) == SubjectText(s')
    ensures s' == s
  {
    PipesOf(s);
    PipesOf(s');
    hide Pipes;
    SplitUnique('|', s.app, s'.app, s.environment + ['|'] + s.cluster, s'.environment + ['|'] + s'.cluster);
    SplitUnique('|', s.environment, s'.environment, s.cluster, s'.cluster);
  }

  /** Within one window and text, equal keys mean equal subject texts. */
  lemma SubjectInKey(q: EventQuery, s: Subject)
    ensures CacheKey(q.(subject := s)) == CacheKey(q) <==> SubjectText(s) == SubjectText(q.subject)
  {
    hide Decimal, UnixNano, Trim;
    var tail := ['|'] + (Decimal(UnixNano(q.from)) + ['|'] + (Decimal(UnixNano(q.to)) + ['|'] + Trim(q.text)));
    assert CacheKey(q.(subject := s)) == SubjectText(s) + tail;
    assert CacheKey(q) == SubjectText(q.subject) + tail;
    var a, b := SubjectText(s), SubjectText(q.subject);
    if a + tail == b + tail {
      assert |a + tail| == |b + tail|;
      assert a == (a + tail)[..|a|] && b == (b + tail)[..|b|];
    }
  }

  lemma PipeAt(s: string) returns (i: nat)
    requires '|' in s
    ensures i < |s| && s == s[..i] + ['|'] + s[i + 1..]
  {
    i :| 0 <= i < |s| && s[i] == '|';
  }

  lemma Rejoin(a: string, b: string, c: string)
    ensures (a + ['|'] + b) + ['|'] + c == a + ['|'] + (b + ['|'] + c)
  {
  }

  /** Moving a boundary to another pipe spells the same subject text differently. */
  lemma Respelled(s: Subject) returns (other: Subject)
    requires Receivable(s) && Ambiguous(s)
    ensures other != s && Receivable(other) && SubjectText(other) == SubjectText(s)
  {
    hide Receivable, SubjectText;
    if '|' in s.app {
      other := AppRespelled(s);
    } else if '|' in s.environment {
      other := EnvironmentRespelled(s);
    } else {
      other := ClusterRespelled(s);
    }
  }

  lemma AppRespelled(s: Subject) returns (other: Subject)
    requires Receivable(s) && '|' in s.app
    ensures other != s && Receivable(other) && SubjectText(other) == SubjectText(s)
  {
    hide IsSpace, SubjectText;
    var i := PipeAt(s.app);
    other := Subject(s.app[..i], s.app[i + 1..] + ['|'] + s.environment, s.cluster);
    PipeInApp(s.app[..i], s.app[i + 1..], s.environment, s.cluster);
    assert |other.app| < |s.app|;
  }

  lemma EnvironmentRespelled(s: Subject) returns (other: Subject)
    requires Receivable(s) && '|' in s.environment
    ensures other != s && Receivable(other) && SubjectText(other) == SubjectText(s)
  {
    assert !IsSpace('|');
    hide IsSpace, SubjectText;
    var i := PipeAt(s.environment);
    other := Subject(s.app + ['|'] + s.environment[..i], s.environment[i + 1..], s.cluster);
    PipeInApp(s.app, s.environment[..i], s.environment[i + 1..], s.cluster);
    assert |other.app| > |s.app| && other.app[0] == if s.app == "" then '|' else s.app[0];
  }

  lemma HeadPipe(s: string) returns (left: string, right: string)
    requires '|' in UpTo(s, ':')
    ensures s == left + ['|'] + right && ':' !in left && (right != "" ==> right[|right| - 1] == s[|s| - 1])
  {
    var head := UpTo(s, ':');
    hide UpTo;
    var i := PipeAt(head);
    left, right := head[..i], s[i + 1..];
    assert s[..|head|] == head && s[i] == head[i] && s[..i] == head[..i];
  }

  lemma ClusterRespelled(s: Subject) returns (other: Subject)
    requires Receivable(s) && '|' in UpTo(s.cluster, ':')
    ensures other != s && Receivable(other) && SubjectText(other) == SubjectText(s)
  {
    hide IsSpace, SubjectText;
    var left, right := HeadPipe(s.cluster);
    other := Subject(s.app, s.environment + ['|'] + left, right);
    PipeInEnvironment(s.app, s.environment, left, right);
    assert |other.environment| > |s.environment|;
  }

  lemma PipeInApp(a: string, b: string, environment: string, cluster: string)
    ensures SubjectText(Subject(a, b + ['|'] + environment, cluster)) ==
              SubjectText(Subject(a + ['|'] + b, environment, cluster))
  {
    Rejoin(a, b, environment + ['|'] + cluster);
    Rejoin(b, environment, cluster);
  }

  lemma PipeInEnvironment(app: string, a: string, b: string, cluster: string)
    ensures SubjectText(Subject(app, a, b + ['|'] + cluster)) == SubjectText(Subject(app, a + ['|'] + b, cluster))
  {
    Rejoin(a, b, cluster);
  }

  /** Across windows and texts more can meet: a cluster that ends like a window, and a text that begins with
      one. Here two requests for different clusters, windows and texts share a key. */
  lemma WindowInCluster(q: EventQuery, from: int, to: int)
    requires Trim(q.text) == ""
    ensures var a := q.(subject := q.subject.(cluster := q.subject.cluster + ['|'] + Decimal(UnixNano(from)) +
                                                         ['|'] + Decimal(UnixNano(to))));
            var b := q.(from := from, to := to,
                        text := Decimal(UnixNano(q.from)) + ['|'] + Decimal(UnixNano(q.to)) + ['|']);
            a != b && CacheKey(a) == CacheKey(b)
  {
    var f, t := Decimal(UnixNano(from)), Decimal(UnixNano(to));
    var x, y := Decimal(UnixNano(q.from)), Decimal(UnixNano(q.to));
    hide Decimal, UnixNano;
    var text := x + ['|'] + y + ['|'];
    assert text[0] == x[0] && text[|text| - 1] == '|';
    assert Trim(text) == text;
    hide Trim;
    var c, e := q.subject.cluster, q.subject.environment;
    assert (c + ['|'] + f + ['|'] + t) + ['|'] + (x + ['|'] + (y + ['|'] + "")) ==
           c + ['|'] + (f + ['|'] + (t + ['|'] + text));
    assert |c + ['|'] + f + ['|'] + t| > |c|;
  }
}
