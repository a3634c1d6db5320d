/** The peer list of a node through any sequence of outgoing connects, incoming hellos
    and stops. Killing a peer's workers yields to other greenlets, so a stop is two
    steps: the flag, then, later, the removal from the list. T is the peer's identity. */
module PeerTables {
  import opened Lists
  import opened Wire

  datatype Row<T> = Row(who: T, id: string)

  datatype Table<T> = Table(
    rows: seq<Row<T>>,    // self.peers
    created: set<T>,
    stopped: set<T>,      // is_stopped
    pending: multiset<T>, // calls of stop that are past the flag and before the removal
    removed: seq<T>,
    failures: nat         // removals of something not in the list
  )

  const TOO_MANY := "Too many peers."
  const DUPLICATE := "Duplicate connection."

  predicate HasID<T>(rows: seq<Row<T>>, id: string) {
    exists i :: 0 <= i < |rows| && rows[i].id == id
  }

  predicate Has<T(==)>(rows: seq<Row<T>>, who: T) {
    exists i :: 0 <= i < |rows| && rows[i].who == who
  }

  /** approve_connection: the reason against a connection, the later test winning. */
  function Disagree<T>(rows: seq<Row<T>>, maxPeers: int, id: string): Option<string> {
    if HasID(rows, id) then Some(DUPLICATE)
    else if |rows| >= maxPeers then Some(TOO_MANY)
    else None
  }

  /** Nobody objects exactly when there is room and the ID is new. */
  lemma NoObjectionIff<T>(rows: seq<Row<T>>, maxPeers: int, id: string)
    ensures Disagree(rows, maxPeers, id).None? <==> |rows| < maxPeers && forall i :: 0 <= i < |rows| ==> rows[i].id != id
    ensures Disagree(rows, maxPeers, id) == Some("Duplicate connection.") <==> exists i :: 0 <= i < |rows| && rows[i].id == id
  {
  }

  /** list.remove: the first entry that is this object. */
  function Without<T(==)>(rows: seq<Row<T>>, who: T): seq<Row<T>> {
    if rows == [] then []
    else if rows[0].who == who then rows[1..]
    else [rows[0]] + Without(rows[1..], who)
  }

  function Listed<T>(t: Table<T>, who: T, id: string): Table<T> {
    t.(rows := t.rows + [Row(who, id)], created := t.created + {who})
  }

  /** make_connection: a refused one creates nothing. */
  function Connected<T>(t: Table<T>, maxPeers: int, who: T, id: string): Table<T> {
    if Disagree(t.rows, maxPeers, id).Some? then t else Listed(t, who, id)
  }

  /** Peer.stop up to its first yield; a second call finds the flag set. */
  function Flagged<T>(t: Table<T>, who: T): Table<T> {
    if who in t.stopped then t
    else t.(stopped := t.stopped + {who}, pending := t.pending + multiset{who})
  }

  /** _new_conn: a refused peer is created, listed and stopped all the same. */
  function Greeted<T>(t: Table<T>, maxPeers: int, who: T, id: string): Table<T> {
    if Disagree(t.rows, maxPeers, id).Some? then Flagged(Listed(t, who, id), who) else Listed(t, who, id)
  }

  /** The rest of Peer.stop. */
  function Finished<T(==)>(t: Table<T>, who: T): Table<T> {
    var t1 := t.(pending := t.pending - multiset{who});
    if Has(t.rows, who) then t1.(rows := Without(t.rows, who), removed := t.removed + [who])
    else t1.(failures := t.failures + 1)
  }

  datatype Op<T> = Connect(who: T, id: string) | Greet(who: T, id: string) | Stop(who: T) | Finish(who: T)

  predicate CanDo<T>(t: Table<T>, op: Op<T>) {
    match op
    case Connect(w, _) => w !in t.created
    case Greet(w, _) => w !in t.created
    case Stop(w) => w in t.created
    case Finish(w) => w in t.pending
  }

  function Done<T(==)>(t: Table<T>, maxPeers: int, op: Op<T>): Table<T> {
    match op
    case Connect(w, id) => Connected(t, maxPeers, w, id)
    case Greet(w, id) => Greeted(t, maxPeers, w, id)
    case Stop(w) => Flagged(t, w)
    case Finish(w) => Finished(t, w)
  }

  predicate CanDoAll<T>(t: Table<T>, maxPeers: int, ops: seq<Op<T>>)
    decreases |ops|
  {
    ops == [] || (CanDo(t, ops[0]) && CanDoAll(Done(t, maxPeers, ops[0]), maxPeers, ops[1..]))
  }

  function DoneAll<T(==)>(t: Table<T>, maxPeers: int, ops: seq<Op<T>>): Table<T>
    requires CanDoAll(t, maxPeers, ops)
    decreases |ops|
  {
    if ops == [] then t else DoneAll(Done(t, maxPeers, ops[0]), maxPeers, ops[1..])
  }

  function Empty<T>(): Table<T> {
    Table([], {}, {}, multiset{}, [], 0)
  }

  // ---- The invariant ---------------------------------------------------------------

  /** The listed peers that have not been stopped. */
  function Live<T>(rows: seq<Row<T>>, stopped: set<T>): seq<Row<T>> {
    if rows == [] then []
    else (if rows[0].who in stopped then [] else [rows[0]]) + Live(rows[1..], stopped)
  }

  predicate Distinct<T(==)>(rows: seq<Row<T>>) {
    forall i, j :: 0 <= i < j < |rows| ==> rows[i].who != rows[j].who
  }

  predicate DistinctIDs<T>(rows: seq<Row<T>>) {
    forall i, j :: 0 <= i < j < |rows| ==> rows[i].id != rows[j].id
  }

  predicate Unrepeated<T(==)>(s: seq<T>) {
    forall i, j :: 0 <= i < j < |s| ==> s[i] != s[j]
  }

  /** Every peer is listed until its one removal, and a removal is due exactly for the
      stopped peers that are still listed. */
  predicate Books<T(==)>(t: Table<T>) {
    && Distinct(t.rows) && Unrepeated(t.removed) && t.failures == 0
    && t.stopped <= t.created
    && (forall i :: 0 <= i < |t.rows| ==> t.rows[i].who in t.created)
    && (forall w | w in t.removed :: w in t.created && !Has(t.rows, w))
    && (forall w | w in t.created && !Has(t.rows, w) :: w in t.stopped && w in t.removed)
    && (forall w | w in t.pending :: w in t.created)
    && (forall w | w in t.created :: t.pending[w] == if w in t.stopped && Has(t.rows, w) then 1 else 0)
  }

  predicate Admission<T>(t: Table<T>, maxPeers: int) {
    && DistinctIDs(Live(t.rows, t.stopped))
    && (|Live(t.rows, t.stopped)| <= maxPeers || Live(t.rows, t.stopped) == [])
  }

  // ---- Lists --------------------------------------------------------------------------

  lemma HasAppend<T>(rows: seq<Row<T>>, r: Row<T>, w: T)
    ensures Has(rows + [r], w) <==> Has(rows, w) || r.who == w
  {
    if Has(rows, w) {
      var i :| 0 <= i < |rows| && rows[i].who == w;
      assert (rows + [r])[i].who == w;
    }
    if r.who == w {
      assert (rows + [r])[|rows|].who == w;
    }
  }

  lemma {:induction false} WithoutIs<T>(rows: seq<Row<T>>, who: T, k: nat)
    requires Distinct(rows) && k < |rows| && rows[k].who == who
    ensures Without(rows, who) == rows[..k] + rows[k + 1..]
  {
    if rows[0].who != who {
      WithoutIs(rows[1..], who, k - 1);
      assert rows[..k] == [rows[0]] + rows[1..][..k - 1];
      assert rows[k + 1..] == rows[1..][k..];
    } else {
      assert k == 0;
    }
  }

  lemma {:induction false} LiveAppend<T>(a: seq<Row<T>>, b: seq<Row<T>>, stopped: set<T>)
    ensures Live(a + b, stopped) == Live(a, stopped) + Live(b, stopped)
  {
    if a == [] {
      assert a + b == b;
    } else {
      assert (a + b)[1..] == a[1..] + b;
      LiveAppend(a[1..], b, stopped);
    }
  }

  lemma {:induction false} LiveFrom<T>(rows: seq<Row<T>>, stopped: set<T>)
    ensures |Live(rows, stopped)| <= |rows|
    ensures forall r | r in Live(rows, stopped) :: r in rows && r.who !in stopped
  {
    if rows != [] {
      LiveFrom(rows[1..], stopped);
    }
  }

  /** Stopping a peer takes at most its own row out of the live ones. */
  lemma {:induction false} LiveShrinks<T>(rows: seq<Row<T>>, stopped: set<T>, w: T)
    requires DistinctIDs(Live(rows, stopped))
    ensures DistinctIDs(Live(rows, stopped + {w})) && |Live(rows, stopped + {w})| <= |Live(rows, stopped)|
    ensures forall r | r in Live(rows, stopped + {w}) :: r in Live(rows, stopped)
  {
    if rows != [] {
      var l := Live(rows, stopped);
      var tail := Live(rows[1..], stopped);
      assert l == (if rows[0].who in stopped then [] else [rows[0]]) + tail;
      assert DistinctIDs(tail) by {
        forall i, j | 0 <= i < j < |tail| ensures tail[i].id != tail[j].id {
          var o := |l| - |tail|;
          assert l[i + o] == tail[i] && l[j + o] == tail[j];
        }
      }
      LiveShrinks(rows[1..], stopped, w);
      var tail' := Live(rows[1..], stopped + {w});
      if rows[0].who !in stopped + {w} {
        assert forall r | r in tail' :: r.id != rows[0].id by {
          forall r | r in tail' ensures r.id != rows[0].id {
            assert r in tail;
            var k :| 0 <= k < |tail| && tail[k] == r;
            assert l[0] == rows[0] && l[k + 1] == r;
          }
        }
      }
    }
  }

  // ---- One operation ------------------------------------------------------------------

  lemma ListedKeeps<T>(t: Table<T>, who: T, id: string)
    requires Books(t) && who !in t.created
    ensures Books(Listed(t, who, id))
  {
    var r := Row(who, id);
    forall w | w in t.created + {who} ensures Has(t.rows + [r], w) <==> Has(t.rows, w) || who == w {
      HasAppend(t.rows, r, w);
    }
    assert who !in t.pending;
  }

  lemma ListedAdmits<T>(t: Table<T>, maxPeers: int, who: T, id: string)
    requires Books(t) && Admission(t, maxPeers) && who !in t.created
    requires Disagree(t.rows, maxPeers, id).None?
    ensures Admission(Listed(t, who, id), maxPeers)
  {
    var l := Live(t.rows, t.stopped);
    var r := Row(who, id);
    LiveAppend(t.rows, [r], t.stopped);
    LiveFrom(t.rows, t.stopped);
    assert Live([r], t.stopped) == [r];
    forall i | 0 <= i < |l| ensures l[i].id != id {
      assert l[i] in t.rows;
    }
  }

  lemma FlaggedKeeps<T>(t: Table<T>, maxPeers: int, who: T)
    requires Books(t) && who in t.created
    ensures Books(Flagged(t, who))
    ensures Admission(t, maxPeers) ==> Admission(Flagged(t, who), maxPeers)
  {
    if Admission(t, maxPeers) {
      LiveShrinks(t.rows, t.stopped, who);
    }
  }

  lemma GreetedKeeps<T>(t: Table<T>, maxPeers: int, who: T, id: string)
    requires Books(t) && Admission(t, maxPeers) && who !in t.created
    ensures Books(Greeted(t, maxPeers, who, id)) && Admission(Greeted(t, maxPeers, who, id), maxPeers)
  {
    ListedKeeps(t, who, id);
    if Disagree(t.rows, maxPeers, id).None? {
      ListedAdmits(t, maxPeers, who, id);
    } else {
      FlaggedKeeps(Listed(t, who, id), maxPeers, who);
      StoppedNewcomer(t, who, id);
    }
  }

  /** A newcomer that is stopped on arrival changes nothing for the live ones. */
  lemma {:induction false} StoppedNewcomer<T>(t: Table<T>, who: T, id: string)
    requires Books(t) && who !in t.created
    ensures Live(t.rows + [Row(who, id)], t.stopped + {who}) == Live(t.rows, t.stopped)
  {
    LiveAppend(t.rows, [Row(who, id)], t.stopped + {who});
    LiveSame(t.rows, t.stopped, who);
  }

  lemma {:induction false} LiveSame<T>(rows: seq<Row<T>>, stopped: set<T>, w: T)
    requires forall i :: 0 <= i < |rows| ==> rows[i].who != w
    ensures Live(rows, stopped + {w}) == Live(rows, stopped)
  {
    if rows != [] {
      LiveSame(rows[1..], stopped, w);
    }
  }

  lemma LiveWithout<T>(rows: seq<Row<T>>, stopped: set<T>, k: nat)
    requires k < |rows| && rows[k].who in stopped
    ensures Live(rows[..k] + rows[k + 1..], stopped) == Live(rows, stopped)
  {
    assert rows == rows[..k] + ([rows[k]] + rows[k + 1..]);
    LiveAppend(rows[..k], [rows[k]] + rows[k + 1..], stopped);
    LiveAppend([rows[k]], rows[k + 1..], stopped);
    LiveAppend(rows[..k], rows[k + 1..], stopped);
    assert Live([rows[k]], stopped) == [];
  }

  /** The removed row's peer, and nobody else, has left. */
  lemma WithoutKeeps<T>(rows: seq<Row<T>>, who: T, k: nat)
    requires Distinct(rows) && k < |rows| && rows[k].who == who
    ensures
      var left := rows[..k] + rows[k + 1..];
      Distinct(left) && forall i :: 0 <= i < |left| ==> left[i] in rows
  {
    var left := rows[..k] + rows[k + 1..];
    forall i, j | 0 <= i < j < |left| ensures left[i].who != left[j].who {
      var i', j' := if i < k then i else i + 1, if j < k then j else j + 1;
      assert left[i] == rows[i'] && left[j] == rows[j'];
    }
  }

  lemma BooksWithout<T>(t: Table<T>, who: T, left: seq<Row<T>>)
    requires Books(t) && who in t.pending
    requires Distinct(left) && forall i :: 0 <= i < |left| ==> left[i].who in t.created
    requires forall w | w in t.created :: Has(left, w) <==> Has(t.rows, w) && w != who
    ensures Books(t.(rows := left, removed := t.removed + [who], pending := t.pending - multiset{who}))
  {
    assert t.pending[who] == 1;
    assert who !in t.removed;
    var p := t.pending - multiset{who};
    assert forall w | w in t.created :: p[w] == if w == who then 0 else t.pending[w];
  }

  lemma FinishedKeeps<T>(t: Table<T>, maxPeers: int, who: T)
    requires Books(t) && who in t.pending
    ensures Has(t.rows, who) && who in t.stopped
    ensures Books(Finished(t, who))
    ensures Admission(t, maxPeers) ==> Admission(Finished(t, who), maxPeers)
  {
    assert t.pending[who] == 1;
    var k :| 0 <= k < |t.rows| && t.rows[k].who == who;
    WithoutIs(t.rows, who, k);
    LiveWithout(t.rows, t.stopped, k);
    WithoutKeeps(t.rows, who, k);
    forall w | w in t.created ensures Has(Without(t.rows, who), w) <==> Has(t.rows, w) && w != who {
      WithoutHas(t.rows, who, k, w);
    }
    BooksWithout(t, who, Without(t.rows, who));
  }

  lemma WithoutHas<T>(rows: seq<Row<T>>, who: T, k: nat, w: T)
    requires Distinct(rows) && k < |rows| && rows[k].who == who
    ensures Has(rows[..k] + rows[k + 1..], w) <==> Has(rows, w) && w != who
  {
    var left := rows[..k] + rows[k + 1..];
    if Has(left, w) {
      var i :| 0 <= i < |left| && left[i].who == w;
      assert rows[if i < k then i else i + 1].who == w;
    }
    if Has(rows, w) && w != who {
      var i :| 0 <= i < |rows| && rows[i].who == w;
      assert left[if i < k then i else i - 1].who == w;
    }
  }

  // ---- Every sequence ---------------------------------------------------------------

  lemma StepKeeps<T>(t: Table<T>, maxPeers: int, op: Op<T>)
    requires Books(t) && Admission(t, maxPeers) && CanDo(t, op)
    ensures Books(Done(t, maxPeers, op)) && Admission(Done(t, maxPeers, op), maxPeers)
  {
    match op
    case Connect(w, id) =>
      if Disagree(t.rows, maxPeers, id).None? {
        ListedKeeps(t, w, id);
        ListedAdmits(t, maxPeers, w, id);
      }
    case Greet(w, id) => GreetedKeeps(t, maxPeers, w, id);
    case Stop(w) => FlaggedKeeps(t, maxPeers, w);
    case Finish(w) => FinishedKeeps(t, maxPeers, w);
  }

  lemma {:induction false} AllKeep<T>(t: Table<T>, maxPeers: int, ops: seq<Op<T>>)
    requires Books(t) && Admission(t, maxPeers) && CanDoAll(t, maxPeers, ops)
    ensures Books(DoneAll(t, maxPeers, ops)) && Admission(DoneAll(t, maxPeers, ops), maxPeers)
    decreases |ops|
  {
    if ops != [] {
      StepKeeps(t, maxPeers, ops[0]);
      AllKeep(Done(t, maxPeers, ops[0]), maxPeers, ops[1..]);
    }
  }

  /** At every moment of every sequence the live peers have different IDs and are within
      the limit; no removal ever fails or repeats; and once no stop is under way a created
      peer is listed exactly when it has not been stopped. */
  lemma PeersAreSound<T>(maxPeers: int, ops: seq<Op<T>>)
    requires CanDoAll(Empty<T>(), maxPeers, ops)
    ensures
      var t := DoneAll(Empty<T>(), maxPeers, ops);
      var live := Live(t.rows, t.stopped);
      && DistinctIDs(live) && (|live| <= maxPeers || live == [])
      && t.failures == 0 && Unrepeated(t.removed)
      && (t.pending == multiset{} ==> live == t.rows && forall w | w in t.created :: Has(t.rows, w) <==> w !in t.stopped)
  {
    AllKeep(Empty<T>(), maxPeers, ops);
    var t := DoneAll(Empty<T>(), maxPeers, ops);
    if t.pending == multiset{} {
      forall w | w in t.created ensures Has(t.rows, w) <==> w !in t.stopped {
        assert t.pending[w] == 0;
      }
      assert forall i :: 0 <= i < |t.rows| ==> Has(t.rows, t.rows[i].who);
      AllLive(t.rows, t.stopped);
    }
  }

  lemma {:induction false} AllLive<T>(rows: seq<Row<T>>, stopped: set<T>)
    requires forall i :: 0 <= i < |rows| ==> rows[i].who !in stopped
    ensures Live(rows, stopped) == rows
  {
    if rows != [] {
      AllLive(rows[1..], stopped);
    }
  }

  predicate Removes<T(==)>(op: Op<T>, who: T) {
    op.Finish? && op.who == who
  }

  lemma {:induction false} PendingStays<T>(t: Table<T>, maxPeers: int, ops: seq<Op<T>>, who: T)
    requires Books(t) && Admission(t, maxPeers) && CanDoAll(t, maxPeers, ops)
    requires who in t.pending && forall op | op in ops :: !Removes(op, who)
    ensures who in DoneAll(t, maxPeers, ops).pending
    decreases |ops|
  {
    if ops != [] {
      assert !Removes(ops[0], who);
      StepKeeps(t, maxPeers, ops[0]);
      PendingStays(Done(t, maxPeers, ops[0]), maxPeers, ops[1..], who);
    }
  }

  /** What a removal takes out of the list: that peer, by identity, and nobody live. */
  lemma FinishedTakesOne<T>(t: Table<T>, who: T)
    requires Books(t) && who in t.pending
    ensures
      var u := Finished(t, who);
      && |u.rows| == |t.rows| - 1
      && (forall w :: Has(u.rows, w) <==> Has(t.rows, w) && w != who)
      && Live(u.rows, u.stopped) == Live(t.rows, t.stopped)
  {
    assert t.pending[who] == 1;
    var k :| 0 <= k < |t.rows| && t.rows[k].who == who;
    WithoutIs(t.rows, who, k);
    forall w ensures Has(Finished(t, who).rows, w) <==> Has(t.rows, w) && w != who {
      WithoutHas(t.rows, who, k, w);
    }
    LiveWithout(t.rows, t.stopped, k);
  }

  /** A refused hello adds a peer that is never live and, whatever happens in between, is
      taken off again by its own removal, which takes off nobody else, whoever had its ID.
      With nothing in between the list is as it was. */
  lemma RefusalIsTransient<T>(t: Table<T>, maxPeers: int, who: T, id: string, ops: seq<Op<T>>)
    requires Books(t) && Admission(t, maxPeers) && who !in t.created && Disagree(t.rows, maxPeers, id).Some?
    requires CanDoAll(Greeted(t, maxPeers, who, id), maxPeers, ops) && forall op | op in ops :: !Removes(op, who)
    ensures
      var g := Greeted(t, maxPeers, who, id);
      var u := DoneAll(g, maxPeers, ops);
      var v := Finished(u, who);
      && Live(g.rows, g.stopped) == Live(t.rows, t.stopped)
      && who in u.pending && |v.rows| == |u.rows| - 1 && v.failures == 0
      && (forall w :: Has(v.rows, w) <==> Has(u.rows, w) && w != who)
      && Live(v.rows, v.stopped) == Live(u.rows, u.stopped)
      && (ops == [] ==> v.rows == t.rows)
  {
    var g := Greeted(t, maxPeers, who, id);
    StoppedNewcomer(t, who, id);
    GreetedKeeps(t, maxPeers, who, id);
    PendingStays(g, maxPeers, ops, who);
    AllKeep(g, maxPeers, ops);
    var u := DoneAll(g, maxPeers, ops);
    FinishedTakesOne(u, who);
    FinishedKeeps(u, maxPeers, who);
    if ops == [] {
      assert g.rows[|t.rows|].who == who;
      WithoutIs(g.rows, who, |t.rows|);
    }
  }

  // ---- PeerManager.stop ---------------------------------------------------------------

  /** The loop of PeerManager.stop walks the list while stopping a peer removes it, so the
      entry behind each peer it stops moves up and is passed over. What it leaves of a
      list, given which entries were being stopped already: */
  function Swept<T(==)>(s: seq<T>, stopped: set<T>): seq<T> {
    if s == [] then []
    else if s[0] in stopped then [s[0]] + Swept(s[1..], stopped)
    else if |s| == 1 then []
    else [s[1]] + Swept(s[2..], stopped)
  }

  /** With no stop under way, exactly the peers at odd positions stay. */
  lemma {:induction false} SweptIsOdds<T>(s: seq<T>, stopped: set<T>)
    requires forall x | x in s :: x !in stopped
    ensures |Swept(s, stopped)| == |s| / 2
    ensures forall k :: 0 <= k < |s| / 2 ==> Swept(s, stopped)[k] == s[2 * k + 1]
  {
    if |s| >= 2 {
      SweptIsOdds(s[2..], stopped);
      assert s[0] in s;
    } else if |s| == 1 {
      assert s[0] in s;
    }
  }

  /** So the manager's stop empties the list exactly when the list was empty or held one
      peer, and that one not yet being stopped. */
  lemma SweptEmpty<T>(s: seq<T>, stopped: set<T>)
    ensures Swept(s, stopped) == [] <==> s == [] || (|s| == 1 && s[0] !in stopped)
  {
  }

  /** The peers the loop comes to. */
  function Visited<T(==)>(s: seq<T>, stopped: set<T>): (v: seq<T>)
    ensures forall w | w in v :: w in s
  {
    if s == [] then []
    else [s[0]] + if s[0] in stopped then Visited(s[1..], stopped) else if |s| == 1 then [] else Visited(s[2..], stopped)
  }

  lemma {:induction false} VisitedUnrepeated<T>(s: seq<T>, stopped: set<T>)
    requires Unrepeated(s)
    ensures Unrepeated(Visited(s, stopped))
    decreases |s|
  {
    if s != [] {
      assert s[0] !in s[1..];
      if s[0] in stopped {
        VisitedUnrepeated(s[1..], stopped);
      } else if |s| > 1 {
        assert forall w | w in s[2..] :: w in s[1..];
        VisitedUnrepeated(s[2..], stopped);
      }
    }
  }

  /** With no stop under way these are the peers at even positions. */
  lemma {:induction false} VisitedIsEvens<T>(s: seq<T>, stopped: set<T>)
    requires forall x | x in s :: x !in stopped
    ensures |Visited(s, stopped)| == (|s| + 1) / 2
    ensures forall k :: 0 <= k < (|s| + 1) / 2 ==> Visited(s, stopped)[k] == s[2 * k]
    decreases |s|
  {
    if |s| >= 2 {
      VisitedIsEvens(s[2..], stopped);
      assert s[0] in s;
    } else if |s| == 1 {
      assert s[0] in s;
    }
  }

  /** send_disconnect with its stop as one step: a peer already being stopped is left to the
      call that stops it. */
  function Dropped<T(==)>(t: Table<T>, who: T): Table<T> {
    if who in t.stopped then t else Finished(Flagged(t, who), who)
  }

  function DroppedAll<T(==)>(t: Table<T>, ws: seq<T>): Table<T>
    decreases |ws|
  {
    if ws == [] then t else DroppedAll(Dropped(t, ws[0]), ws[1..])
  }

  lemma DroppedKeeps<T>(t: Table<T>, who: T)
    requires Books(t) && who in t.created
    ensures
      var u := Dropped(t, who);
      && Books(u) && u.created == t.created && u.stopped == t.stopped + {who} && u.pending == t.pending
      && (forall w :: Has(u.rows, w) <==> Has(t.rows, w) && (w in t.stopped || w != who))
  {
    if who !in t.stopped {
      var f := Flagged(t, who);
      FlaggedKeeps(t, 0, who);
      FinishedKeeps(f, 0, who);
      FinishedTakesOne(f, who);
    }
  }

  /** The loop as it was meant, over a copy of the list, or over any peers. */
  lemma {:induction false} DroppedAllKeeps<T>(t: Table<T>, ws: seq<T>)
    requires Books(t) && forall w | w in ws :: w in t.created
    ensures
      var u := DroppedAll(t, ws);
      && Books(u) && u.created == t.created && u.pending == t.pending
      && (forall w :: w in u.stopped <==> w in t.stopped || w in ws)
      && (forall w :: Has(u.rows, w) <==> Has(t.rows, w) && (w in t.stopped || w !in ws))
    decreases |ws|
  {
    if ws != [] {
      DroppedKeeps(t, ws[0]);
      DroppedAllKeeps(Dropped(t, ws[0]), ws[1..]);
    }
  }

  function Whos<T>(rows: seq<Row<T>>): (s: seq<T>)
    ensures |s| == |rows| && forall i :: 0 <= i < |s| ==> s[i] == rows[i].who
  {
    if rows == [] then [] else [rows[0].who] + Whos(rows[1..])
  }

  /** The stop as it was meant leaves exactly the peers whose removal was already under way,
      so none if there are none of these. */
  lemma StopAsMeant<T>(t: Table<T>)
    requires Books(t)
    ensures
      var u := DroppedAll(t, Whos(t.rows));
      && Books(u)
      && (forall w :: Has(u.rows, w) <==> w in t.pending)
      && (t.pending == multiset{} ==> u.rows == [])
  {
    var ws := Whos(t.rows);
    DroppedAllKeeps(t, ws);
    var u := DroppedAll(t, ws);
    forall w ensures Has(u.rows, w) <==> w in t.pending {
      if Has(t.rows, w) {
        var i :| 0 <= i < |t.rows| && t.rows[i].who == w;
        assert ws[i] == w;
      }
    }
    if t.pending == multiset{} && u.rows != [] {
      assert Has(u.rows, u.rows[0].who);
      assert false;
    }
  }

  /** The list after one turn of the loop in PeerManager.stop. */
  function Left<T(==)>(peers: seq<T>, i: nat, stopped: set<T>): seq<T>
    requires i < |peers|
  {
    if peers[i] in stopped then peers else peers[..i] + peers[i + 1..]
  }

  /** How far the loop has come: what it will leave is what it has passed, and what it
      would leave of the rest. */
  predicate InTurn<T(==)>(ps: seq<T>, peers: seq<T>, i: nat, stopped: set<T>) {
    Swept(ps, stopped) == if i <= |peers| then peers[..i] + Swept(peers[i..], stopped) else peers
  }

  lemma SweptTurn<T>(ps: seq<T>, peers: seq<T>, i: nat, stopped: set<T>)
    requires i < |peers| && Unrepeated(peers) && InTurn(ps, peers, i, stopped)
    ensures
      var left := Left(peers, i, stopped);
      && (forall p | p in left :: p in peers)
      && InTurn(ps, left, i + 1, stopped)
      && (i + 1 <= |left| ==> forall p | p in left[i + 1..] :: p in peers[i..] && p != peers[i])
  {
    var left := Left(peers, i, stopped);
    assert peers[i..] == [peers[i]] + peers[i + 1..];
    if peers[i] in stopped {
      assert peers[..i + 1] == peers[..i] + [peers[i]];
    } else if i + 1 <= |left| {
      assert left[..i + 1] == peers[..i] + [peers[i + 1]];
      assert left[i + 1..] == peers[i + 2..];
      assert peers[i..][2..] == peers[i + 2..];
    }
  }

  /** The peers the loop will still come to. */
  function ToVisit<T(==)>(peers: seq<T>, i: nat, stopped: set<T>): seq<T> {
    if i <= |peers| then Visited(peers[i..], stopped) else []
  }

  lemma VisitedTurn<T>(peers: seq<T>, i: nat, stopped: set<T>)
    requires i < |peers|
    ensures ToVisit(peers, i, stopped) == [peers[i]] + ToVisit(Left(peers, i, stopped), i + 1, stopped)
  {
    assert peers[i..] == [peers[i]] + peers[i + 1..];
    if peers[i] !in stopped && i + 1 < |peers| {
      assert Left(peers, i, stopped)[i + 1..] == peers[i + 2..];
      assert peers[i..][2..] == peers[i + 2..];
    }
  }

  /** Where the loop stands: from `ps` and `books` it has come to `peers` and `t`, and the
      peers before it are as they were. */
  predicate InLoop<T(==)>(ps: seq<T>, books: Table<T>, peers: seq<T>, t: Table<T>, i: nat) {
    && InTurn(ps, peers, i, books.stopped)
    && Unrepeated(peers) && (forall p | p in peers :: p in t.created)
    && (i <= |peers| ==> forall p | p in peers[i..] :: p in t.stopped <==> p in books.stopped)
  }

  lemma LoopStarts<T>(ps: seq<T>, books: Table<T>)
    requires Unrepeated(ps) && forall p | p in ps :: p in books.created
    ensures InLoop(ps, books, ps, books, 0)
  {
    assert ps[..0] == [] && ps[0..] == ps;
  }

  lemma LoopTurns<T>(ps: seq<T>, books: Table<T>, peers: seq<T>, t: Table<T>, i: nat)
    requires InLoop(ps, books, peers, t, i) && i < |peers|
    ensures peers[i] in t.stopped <==> peers[i] in books.stopped
    ensures |Left(peers, i, books.stopped)| <= |peers|
    ensures InLoop(ps, books, Left(peers, i, books.stopped), Dropped(t, peers[i]), i + 1)
  {
    assert peers[i] in peers[i..];
    SweptTurn(ps, peers, i, books.stopped);
    LeftUnrepeated(peers, i, books.stopped);
    DroppedFlags(t, peers[i]);
  }

  lemma DroppedFlags<T>(t: Table<T>, who: T)
    ensures Dropped(t, who).created == t.created && Dropped(t, who).stopped == t.stopped + {who}
  {
  }

  lemma LeftUnrepeated<T>(peers: seq<T>, i: nat, stopped: set<T>)
    requires i < |peers| && Unrepeated(peers)
    ensures Unrepeated(Left(peers, i, stopped))
  {
  }

  lemma LoopEnds<T>(ps: seq<T>, books: Table<T>, peers: seq<T>, t: Table<T>, i: nat)
    requires InLoop(ps, books, peers, t, i) && i >= |peers|
    ensures peers == Swept(ps, books.stopped) && ToVisit(peers, i, books.stopped) == []
  {
    assert i == |peers| ==> peers[i..] == [] && peers[..i] == peers;
  }

  // ---- PeerManager.broadcast ----------------------------------------------------------

  lemma {:induction false} SizeOfUnrepeated<T>(s: seq<T>)
    requires Unrepeated(s)
    ensures |set x | x in s| == |s|
  {
    if s != [] {
      SizeOfUnrepeated(s[1..]);
      assert (set x | x in s) == {s[0]} + set x | x in s[1..];
    }
  }

  /** Sampling as many as there are takes all of them. */
  lemma SampleIsAll<T>(sample: seq<T>, pool: seq<T>)
    requires Unrepeated(sample) && Unrepeated(pool) && |sample| == |pool|
    requires forall x | x in sample :: x in pool
    ensures forall x | x in pool :: x in sample
  {
    SizeOfUnrepeated(sample);
    SizeOfUnrepeated(pool);
    var a, b := set x | x in sample, set x | x in pool;
    assert a <= b;
    assert |b - a| == |b| - |a|;
    forall x | x in pool ensures x in sample {
      assert x in b && b - a == {};
    }
  }
}
