/** The address book (pkg/addressbook/book.go): write-through for everything except
    LastSeen, which is batched behind a dirty flag. Time and the failure of a save are
    arguments. */
module AddressBook {
  import opened Runs
  import opened Basics
  import opened Storage

  /** `saved` are the books the file has held: the one found, then every one saved. */
  datatype Book = Book(c: Codec, peers: Peers, dirty: bool, disk: Disk, saved: seq<Peers>)

  datatype Label =
    | AddPeer(k: Key, addrs: seq<Addr>, meta: Option<map<string, string>>, now: Time, fail: Option<Stage>)
    | RemovePeer(k: Key, fail: Option<Stage>)
    | SetBlacklisted(k: Key, flag: bool, now: Time, fail: Option<Stage>)
    | UpdatePublicKey(k: Key, key: seq<int>, now: Time, fail: Option<Stage>)
    | UpdateMetadata(k: Key, changes: map<string, string>, now: Time, fail: Option<Stage>)
    | Clear(fail: Option<Stage>)
    | UpdateLastSeen(k: Key, now: Time)
    | Reload(ok: bool)
    | Flush(fail: Option<Stage>)   // Flush, Close and the flush tick
    | Settle                       // the file system writes its directory

  /** New: load what is on disk. */
  function Start(c: Codec, disk: Disk): Book {
    Book(c, Load(c, disk.main), false, AfterLoad(disk), [Load(c, disk.main)])
  }

  function Saved(b: Book, fail: Option<Stage>): Book {
    var t := Trace(b.disk, EncodeAll(b.c, b.peers), fail, Garbage);
    b.(disk := t[|t| - 1], dirty := b.dirty && fail.Some?, saved := if fail.None? then b.saved + [b.peers] else b.saved)
  }

  /** Merging: an empty value deletes its key. */
  function Merge(meta: map<string, string>, changes: map<string, string>): map<string, string> {
    map s | s in meta.Keys + changes.Keys && (s in changes ==> changes[s] != "") ::
      if s in changes then changes[s] else meta[s]
  }

  /** The write-through operations on the peers in memory; None is an error return. */
  function Mutated(peers: Peers, l: Label): Option<Peers> {
    match l
    case AddPeer(k, addrs, meta, now, _) =>
      if k !in peers then
        Some(peers[k := Entry(addrs, [], if meta.Some? then meta.value else map[], 0, false, now, now)])
      else if peers[k].blacklisted then None
      else Some(peers[k := peers[k].(addrs := addrs, updatedAt := now,
                                     metadata := if meta.Some? then meta.value else peers[k].metadata)])
    case RemovePeer(k, _) => if k in peers then Some(peers - {k}) else None
    case SetBlacklisted(k, flag, now, _) =>
      if k in peers then Some(peers[k := peers[k].(blacklisted := flag, updatedAt := now)]) else None
    case UpdatePublicKey(k, key, now, _) =>
      if k in peers then Some(peers[k := peers[k].(publicKey := key, updatedAt := now)]) else None
    case UpdateMetadata(k, changes, now, _) =>
      if k in peers
      then Some(peers[k := peers[k].(metadata := Merge(peers[k].metadata, changes), updatedAt := now)]) else None
    case Clear(_) => Some(map[])
    case _ => None
  }

  predicate WriteThrough(l: Label) { !l.UpdateLastSeen? && !l.Reload? && !l.Flush? && !l.Settle? }

  function Next(b: Book, l: Label): Book {
    match l
    case UpdateLastSeen(k, now) =>
      if k in b.peers
      then b.(peers := b.peers[k := b.peers[k].(lastSeen := now, updatedAt := now)], dirty := true) else b
    case Reload(ok) =>
      if ok then b.(peers := Load(b.c, b.disk.main), disk := AfterLoad(b.disk), dirty := false) else b
    case Flush(fail) => if b.dirty then Saved(b, fail) else b
    case Settle => b.(disk := b.disk.(past := {}))
    case _ =>
      var p := Mutated(b.peers, l);
      if p.Some? then Saved(b.(peers := p.value), l.fail) else b
  }

  // ---- Memory and file ----

  /** An entry up to the two fields that are batched. */
  function Strip(e: Entry): Entry { e.(lastSeen := 0, updatedAt := 0) }

  function StripAll(peers: Peers): Peers { map k | k in peers :: Strip(peers[k]) }

  ghost predicate Agrees(b: Book) {
    && Faithful(b.c) && Sound(b.disk)
    && StripAll(Load(b.c, b.disk.main)) == StripAll(b.peers)
    && (!b.dirty ==> Load(b.c, b.disk.main) == b.peers)
  }

  predicate Succeeds(l: Label) {
    match l
    case UpdateLastSeen(_, _) => true
    case Reload(_) => true
    case Settle => true
    case _ => l.fail.None?
  }

  lemma StepAgrees(b: Book, l: Label)
    requires Agrees(b) && Succeeds(l)
    ensures Agrees(Next(b, l)) && Next(b, l).c == b.c
  {
    match l
    case UpdateLastSeen(k, now) =>
      if k in b.peers { SeenKeepsRest(b.peers, k, now); }
    case Reload(ok) =>
    case Settle =>
    case Flush(fail) => SavedAgrees(b);
    case _ =>
      var p := Mutated(b.peers, l);
      if p.Some? { SavedAgrees(b.(peers := p.value)); }
  }

  /** A successful save makes memory and file agree, whatever they were. */
  lemma SavedAgrees(b: Book)
    requires Faithful(b.c) && Sound(b.disk)
    ensures Agrees(Saved(b, None)) && Saved(b, None).c == b.c
  {
    SaveOutcome(b.c, b.disk, b.peers, None, Garbage);
  }

  lemma SeenKeepsRest(peers: Peers, k: Key, now: Time)
    requires k in peers
    ensures StripAll(peers[k := peers[k].(lastSeen := now, updatedAt := now)]) == StripAll(peers)
  {}

  /** Persistence, in every run in which saves succeed: from any file the book was opened on,
      the file and the memory agree except for LastSeen and UpdatedAt, agree fully while the
      dirty flag is clear, and a flush, close or tick makes them agree fully. */
  lemma {:induction false} FileFollowsMemory(c: Codec, disk: Disk, run: seq<Label>)
    requires Faithful(c) && Sound(disk) && forall l :: l in run ==> Succeeds(l)
    ensures var b := Exec(Next, Start(c, disk), run);
      && Agrees(b)
      && StripAll(Load(c, b.disk.main)) == StripAll(b.peers)
      && (!b.dirty ==> Load(c, b.disk.main) == b.peers)
      && (var f := Next(b, Flush(None)); !f.dirty && f.peers == b.peers && Load(c, f.disk.main) == b.peers)
    decreases |run|
  {
    if |run| > 0 {
      FileFollowsMemory(c, disk, run[..|run| - 1]);
      StepAgrees(Exec(Next, Start(c, disk), run[..|run| - 1]), run[|run| - 1]);
    }
    CodecKept(c, disk, run);
    StepAgrees(Exec(Next, Start(c, disk), run), Flush(None));
  }

  lemma {:induction false} CodecKept(c: Codec, disk: Disk, run: seq<Label>)
    ensures Exec(Next, Start(c, disk), run).c == c
    decreases |run|
  {
    if |run| > 0 { CodecKept(c, disk, run[..|run| - 1]); }
  }

  /** Each field has its writers: what a write-through operation may do to the entry of `k`. */
  lemma FieldsHaveWriters(peers: Peers, l: Label, k: Key)
    requires Mutated(peers, l).Some?
    ensures var q := Mutated(peers, l).value;
      && (k in q && k !in peers ==> l.AddPeer? && l.k == k && !q[k].blacklisted && q[k].createdAt == l.now)
      && (k in peers && k !in q ==> l.Clear? || (l.RemovePeer? && l.k == k))
      && (k in peers && k in q ==>
            var e, d := peers[k], q[k];
            && d.createdAt == e.createdAt && d.lastSeen == e.lastSeen
            && (d.blacklisted != e.blacklisted ==> l.SetBlacklisted? && l.k == k && l.flag == d.blacklisted)
            && (d.publicKey != e.publicKey ==> l.UpdatePublicKey? && l.k == k && l.key == d.publicKey)
            && (d.addrs != e.addrs ==> l.AddPeer? && l.k == k && l.addrs == d.addrs && !e.blacklisted)
            && (d.metadata != e.metadata ==> (l.AddPeer? && !e.blacklisted) || l.UpdateMetadata?)
            && (d.updatedAt != e.updatedAt ==> !l.RemovePeer? && l.k == k && l.now == d.updatedAt))
  {}

  /** Labels that may lift the blacklisting of `k`. */
  predicate Lifts(l: Label, k: Key) {
    l.Clear? || (l.RemovePeer? && l.k == k) || (l.SetBlacklisted? && l.k == k && !l.flag)
  }

  /** The blacklist sticks: until it is lifted or the peer removed, a blacklisted peer stays
      blacklisted with its addresses frozen, in memory and in the file, over every run in
      which saves succeed, reloading from the file included. */
  lemma {:induction false} BlacklistSticks(b: Book, run: seq<Label>, k: Key)
    requires Agrees(b) && k in b.peers && b.peers[k].blacklisted
    requires forall l :: l in run ==> Succeeds(l) && !Lifts(l, k)
    ensures var n := Exec(Next, b, run); var f := Load(n.c, n.disk.main);
      && Agrees(n)
      && k in n.peers && n.peers[k].blacklisted && n.peers[k].addrs == b.peers[k].addrs
      && k in f && f[k].blacklisted && f[k].addrs == b.peers[k].addrs
    decreases |run|
  {
    if |run| > 0 {
      var init, l := run[..|run| - 1], run[|run| - 1];
      assert l in run;
      BlacklistSticks(b, init, k);
      StepAgrees(Exec(Next, b, init), l);
      StaysBlacklisted(Exec(Next, b, init), l, k);
    }
    SameUpToStrip(Exec(Next, b, run), k);
  }

  lemma StaysBlacklisted(b: Book, l: Label, k: Key)
    requires Agrees(b) && k in b.peers && b.peers[k].blacklisted && !Lifts(l, k)
    ensures var n := Next(b, l); k in n.peers && n.peers[k].blacklisted && n.peers[k].addrs == b.peers[k].addrs
  {
    SameUpToStrip(b, k);
    if WriteThrough(l) && Mutated(b.peers, l).Some? { FieldsHaveWriters(b.peers, l, k); }
  }

  lemma SameUpToStrip(b: Book, k: Key)
    requires Agrees(b)
    ensures var f := Load(b.c, b.disk.main);
      (k in f <==> k in b.peers) && (k in f ==> Strip(f[k]) == Strip(b.peers[k]))
  {
    var f := Load(b.c, b.disk.main);
    assert StripAll(f).Keys == f.Keys && StripAll(b.peers).Keys == b.peers.Keys;
    assert k in f ==> StripAll(f)[k] == Strip(f[k]) && StripAll(b.peers)[k] == Strip(b.peers[k]);
  }

  /** A failed write-through save leaves the change in memory only, and memory and file then
      agree exactly when the change touched nothing but the batched fields. With a clear
      dirty flag nothing is retried: no later tick, flush or close writes it. */
  lemma FailedSaveExactly(b: Book, l: Label, fail: Option<Stage>)
    requires Agrees(b) && WriteThrough(l) && l.fail.Some? && Mutated(b.peers, l).Some?
    ensures var n := Next(b, l);
      && n.peers == Mutated(b.peers, l).value && n.dirty == b.dirty
      && Load(b.c, n.disk.main) == Load(b.c, b.disk.main)
      && (StripAll(Load(b.c, n.disk.main)) == StripAll(n.peers) <==> StripAll(n.peers) == StripAll(b.peers))
      && (!b.dirty ==> Next(n, Flush(fail)) == n
                       && (Load(b.c, n.disk.main) == n.peers <==> n.peers == b.peers))
  {
    var q := Mutated(b.peers, l).value;
    var n := Next(b, l);
    assert n == Saved(b.(peers := q), l.fail);
    NothingSaved(b, q, l.fail);
    if !b.dirty { assert Next(n, Flush(fail)) == n; }
  }

  /** Such a change is lost: on a new disk a peer is added, the rename fails, and after a flush
      the file is still empty. */
  lemma FailedAddIsLost(c: Codec, now: Time)
    requires Faithful(c)
    ensures var run := [AddPeer("a", [], None, now, Some(Rename)), Flush(None)];
      var b := Exec(Next, Start(c, Disk(None, None, {})), run);
      "a" in b.peers && Load(c, b.disk.main) == map[]
  {
    var s, l := Start(c, Disk(None, None, {})), AddPeer("a", [], None, now, Some(Rename));
    Short(Next, s, l, Flush(None));
    FailedSaveExactly(s, l, None);
    assert "a" in Mutated(s.peers, l).value;
  }

  lemma NothingSaved(b: Book, q: Peers, fail: Option<Stage>)
    requires Faithful(b.c) && Sound(b.disk) && fail.Some?
    ensures var n := Saved(b.(peers := q), fail);
      n.peers == q && n.dirty == b.dirty && Load(b.c, n.disk.main) == Load(b.c, b.disk.main)
  {
    SaveOutcome(b.c, b.disk, q, fail, Garbage);
  }

  // ---- Files over runs in which saves may fail ----

  /** The file holds the last book saved, and what a crash may bring back was saved before or
      was already lost to view when the book was opened. */
  ghost predicate Recorded(b: Book, before: set<Peers>) {
    && Faithful(b.c) && Sound(b.disk) && |b.saved| > 0
    && Load(b.c, b.disk.main) == b.saved[|b.saved| - 1]
    && forall p :: p in b.disk.past ==> Load(b.c, p) in b.saved || Load(b.c, p) in before
  }

  function Found(c: Codec, disk: Disk): set<Peers> { set p | p in disk.past :: Load(c, p) }

  lemma SavedRecorded(b: Book, fail: Option<Stage>, before: set<Peers>)
    requires Recorded(b, before)
    ensures Recorded(Saved(b, fail), before)
  {
    SaveOutcome(b.c, b.disk, b.peers, fail, Garbage);
    var t := Trace(b.disk, EncodeAll(b.c, b.peers), fail, Garbage);
    assert forall p :: p in t[|t| - 1].past ==> p in b.disk.past || p == b.disk.main;
  }

  lemma StepRecorded(b: Book, l: Label, before: set<Peers>)
    requires Recorded(b, before)
    ensures Recorded(Next(b, l), before)
  {
    match l
    case UpdateLastSeen(_, _) =>
    case Reload(_) =>
    case Settle =>
    case Flush(fail) => SavedRecorded(b, fail, before);
    case _ =>
      var p := Mutated(b.peers, l);
      if p.Some? { SavedRecorded(b.(peers := p.value), l.fail, before); }
  }

  /** In every run, whichever saves fail: the file is the memory as of the last save that
      succeeded, or the book found when there was none; and whatever loads after a crash
      between two operations is one of the books saved so far, or one from before the opening
      that the directory still showed. */
  lemma {:induction false} FileIsLastSave(c: Codec, disk: Disk, run: seq<Label>)
    requires Faithful(c) && Sound(disk)
    ensures var b := Exec(Next, Start(c, disk), run);
      && Recorded(b, Found(c, disk)) && b.c == c
      && Load(c, b.disk.main) == b.saved[|b.saved| - 1]
      && forall after :: CrashMain(b.disk, after) ==> Load(c, after) in b.saved || Load(c, after) in Found(c, disk)
    decreases |run|
  {
    CodecKept(c, disk, run);
    var b := Exec(Next, Start(c, disk), run);
    if |run| > 0 {
      FileIsLastSave(c, disk, run[..|run| - 1]);
      StepRecorded(Exec(Next, Start(c, disk), run[..|run| - 1]), run[|run| - 1], Found(c, disk));
    }
    forall after | CrashMain(b.disk, after) ensures Load(c, after) in b.saved || Load(c, after) in Found(c, disk) {
      SoundCrash(c, b.disk, after);
    }
  }

  /** A crash anywhere inside the save of an operation: what loads afterwards is the book
      before the operation, up to the batched fields, or the book after it, or, unless earlier
      renames had settled, one that an earlier save had replaced. */
  lemma CrashDuringOperation(b: Book, l: Label, i: nat, after: Option<File>)
    requires Agrees(b) && WriteThrough(l) && Mutated(b.peers, l).Some?
    requires var t := Trace(b.disk, EncodeAll(b.c, Mutated(b.peers, l).value), l.fail, Garbage);
      i < |t| && CrashMain(t[i], after)
    ensures || StripAll(Load(b.c, after)) == StripAll(b.peers)
            || (l.fail.None? && Load(b.c, after) == Mutated(b.peers, l).value)
            || (!Settled(b.c, b.disk) && Earlier(b.c, b.disk, Load(b.c, after)))
  {
    var p := Mutated(b.peers, l).value;
    BookRoundTrip(b.c, p);
    CrashLoadsWholeBook(b.c, b.disk, EncodeAll(b.c, p), l.fail, Garbage, i, after);
  }

  /** Two saves lose one: on a new disk the first peer is added and saved; the machine stops
      while the second is being saved; the empty book loads, which is neither the old book
      nor the new one. */
  lemma TwoSavesLoseOne(c: Codec, now: Time)
    requires Faithful(c)
    ensures var first, second := AddPeer("a", [], None, now, None), AddPeer("b", [], None, now, None);
      var b := Exec(Next, Start(c, Disk(None, None, {})), [first]);
      var q := Mutated(b.peers, second);
      && q.Some?
      && CrashMain(Trace(b.disk, EncodeAll(c, q.value), None, Garbage)[0], None)
      && Load(c, None) != b.peers && Load(c, None) != q.value
      && Load(c, b.disk.main) == b.peers && !Settled(c, b.disk)
  {
    var first, s := AddPeer("a", [], None, now, None), Start(c, Disk(None, None, {}));
    Short(Next, s, first, first);
    var b := Next(s, first);
    SaveOutcome(c, s.disk, Mutated(s.peers, first).value, None, Garbage);
    assert None in b.disk.past && MayBecome(None, None);
    assert "a" in b.peers;
    assert "a" in Mutated(b.peers, AddPeer("b", [], None, now, None)).value;
  }

  // ---- The object ----

  /** Every entry but that of `k` is as before. */
  ghost predicate OthersKept(was: Peers, now: Peers, k: Key) {
    forall q :: q != k ==> (q in now <==> q in was) && (q in now ==> now[q] == was[q])
  }

  /** The metadata after a merge: a change to the empty value deletes, another one sets. */
  ghost predicate Merged(was: map<string, string>, changes: map<string, string>, now: map<string, string>) {
    && (forall s :: s in changes && changes[s] != "" ==> s in now && now[s] == changes[s])
    && (forall s :: s in changes && changes[s] == "" ==> s !in now)
    && (forall s :: s !in changes ==> (s in now <==> s in was) && (s in now ==> now[s] == was[s]))
  }

  /** The Book object; each method is one lock-held section. Each is the machine's step, and its
      effect is also said of the entries and of the file. */
  class AddressBook {
    const c: Codec
    var peers: Peers
    var dirty: bool
    var disk: Disk
    ghost var saved: seq<Peers>

    ghost function View(): Book
      reads this
    {
      Book(c, peers, dirty, disk, saved)
    }

    constructor (c: Codec, disk: Disk)
      requires Faithful(c) && Sound(disk)
      ensures View() == Start(c, disk) && Agrees(View())
    {
      this.c, peers, dirty, this.disk := c, Load(c, disk.main), false, AfterLoad(disk);
      saved := [Load(c, disk.main)];
    }

    method SaveLocked(fail: Option<Stage>) returns (ok: bool)
      modifies this`dirty, this`disk, this`saved
      ensures View() == Saved(old(View()), fail) && (ok <==> fail.None?)
      ensures ok ==> !dirty
      ensures ok && Faithful(c) && Sound(old(disk)) ==> Load(c, disk.main) == peers
    {
      var done, after, _ := Save(disk, EncodeAll(c, peers), fail, Garbage);
      if Faithful(c) && Sound(disk) { SaveOutcome(c, disk, peers, fail, Garbage); }
      disk := after;
      if !done { return false; }
      dirty := false;
      saved := saved + [peers];
      return true;
    }

    method Add(k: Key, addrs: seq<Addr>, meta: Option<map<string, string>>, now: Time, fail: Option<Stage>)
      returns (ok: bool)
      modifies this
      ensures View() == Next(old(View()), AddPeer(k, addrs, meta, now, fail))
      ensures ok <==> fail.None? && (k in old(peers) ==> !old(peers)[k].blacklisted)
      ensures ok && Faithful(c) && Sound(old(disk)) ==> Load(c, disk.main) == peers
      ensures k in old(peers) && old(peers)[k].blacklisted ==> View() == old(View())
      ensures k in old(peers) && !old(peers)[k].blacklisted ==>
                && k in peers && OthersKept(old(peers), peers, k)
                && peers[k].addrs == addrs && peers[k].updatedAt == now
                && peers[k].metadata == (if meta.Some? then meta.value else old(peers)[k].metadata)
                && peers[k].publicKey == old(peers)[k].publicKey && peers[k].lastSeen == old(peers)[k].lastSeen
                && peers[k].createdAt == old(peers)[k].createdAt && !peers[k].blacklisted
      ensures k !in old(peers) ==>
                && k in peers && OthersKept(old(peers), peers, k)
                && peers[k].addrs == addrs && peers[k].metadata == (if meta.Some? then meta.value else map[])
                && peers[k].publicKey == [] && peers[k].lastSeen == 0 && !peers[k].blacklisted
                && peers[k].createdAt == now && peers[k].updatedAt == now
    {
      if k in peers {
        if peers[k].blacklisted { return false; }
        var e := peers[k].(addrs := addrs);
        if meta.Some? { e := e.(metadata := meta.value); }
        peers := peers[k := e.(updatedAt := now)];
      } else {
        peers := peers[k := Entry(addrs, [], if meta.Some? then meta.value else map[], 0, false, now, now)];
      }
      ok := SaveLocked(fail);
    }

    method Remove(k: Key, fail: Option<Stage>) returns (ok: bool)
      modifies this
      ensures View() == Next(old(View()), RemovePeer(k, fail))
      ensures ok <==> k in old(peers) && fail.None?
      ensures ok && Faithful(c) && Sound(old(disk)) ==> Load(c, disk.main) == peers
      ensures k !in peers && OthersKept(old(peers), peers, k)
      ensures k !in old(peers) ==> View() == old(View())
    {
      if k !in peers { return false; }
      peers := peers - {k};
      ok := SaveLocked(fail);
    }

    method Blacklist(k: Key, flag: bool, now: Time, fail: Option<Stage>) returns (ok: bool)
      modifies this
      ensures View() == Next(old(View()), SetBlacklisted(k, flag, now, fail))
      ensures ok <==> k in old(peers) && fail.None?
      ensures ok && Faithful(c) && Sound(old(disk)) ==> Load(c, disk.main) == peers
      ensures k !in old(peers) ==> View() == old(View())
      ensures k in old(peers) ==>
                && k in peers && OthersKept(old(peers), peers, k)
                && peers[k].blacklisted == flag && peers[k].updatedAt == now
                && peers[k].addrs == old(peers)[k].addrs && peers[k].publicKey == old(peers)[k].publicKey
                && peers[k].metadata == old(peers)[k].metadata && peers[k].lastSeen == old(peers)[k].lastSeen
                && peers[k].createdAt == old(peers)[k].createdAt
    {
      if k !in peers { return false; }
      peers := peers[k := peers[k].(blacklisted := flag, updatedAt := now)];
      ok := SaveLocked(fail);
    }

    method SetPublicKey(k: Key, key: seq<int>, now: Time, fail: Option<Stage>) returns (ok: bool)
      modifies this
      ensures View() == Next(old(View()), UpdatePublicKey(k, key, now, fail))
      ensures ok <==> k in old(peers) && fail.None?
      ensures ok && Faithful(c) && Sound(old(disk)) ==> Load(c, disk.main) == peers
      ensures k !in old(peers) ==> View() == old(View())
      ensures k in old(peers) ==>
                && k in peers && OthersKept(old(peers), peers, k)
                && peers[k].publicKey == key && peers[k].updatedAt == now
                && peers[k].addrs == old(peers)[k].addrs && peers[k].blacklisted == old(peers)[k].blacklisted
                && peers[k].metadata == old(peers)[k].metadata && peers[k].lastSeen == old(peers)[k].lastSeen
                && peers[k].createdAt == old(peers)[k].createdAt
    {
      if k !in peers { return false; }
      peers := peers[k := peers[k].(publicKey := key, updatedAt := now)];
      ok := SaveLocked(fail);
    }

    /** The merge loop, over the changes in any order. */
    method MergeMetadata(k: Key, changes: map<string, string>, now: Time, fail: Option<Stage>) returns (ok: bool)
      modifies this
      ensures View() == Next(old(View()), UpdateMetadata(k, changes, now, fail))
      ensures ok <==> k in old(peers) && fail.None?
      ensures ok && Faithful(c) && Sound(old(disk)) ==> Load(c, disk.main) == peers
      ensures k !in old(peers) ==> View() == old(View())
      ensures k in old(peers) ==>
                && k in peers && OthersKept(old(peers), peers, k)
                && Merged(old(peers)[k].metadata, changes, peers[k].metadata) && peers[k].updatedAt == now
                && peers[k].addrs == old(peers)[k].addrs && peers[k].blacklisted == old(peers)[k].blacklisted
                && peers[k].publicKey == old(peers)[k].publicKey && peers[k].lastSeen == old(peers)[k].lastSeen
                && peers[k].createdAt == old(peers)[k].createdAt
    {
      if k !in peers { return false; }
      var meta := MergeAll(peers[k].metadata, changes);
      peers := peers[k := peers[k].(metadata := meta, updatedAt := now)];
      ok := SaveLocked(fail);
    }

    method MergeAll(before: map<string, string>, changes: map<string, string>) returns (meta: map<string, string>)
      ensures meta == Merge(before, changes) && Merged(before, changes, meta)
    {
      meta := before;
      var todo := changes.Keys;
      while todo != {}
        invariant todo <= changes.Keys
        invariant forall s :: s in meta <==> if s in changes.Keys - todo then changes[s] != "" else s in before
        invariant forall s :: s in meta ==> meta[s] == if s in changes.Keys - todo then changes[s] else before[s]
        decreases todo
      {
        var s :| s in todo;
        if changes[s] == "" { meta := meta - {s}; } else { meta := meta[s := changes[s]]; }
        todo := todo - {s};
      }
    }

    /** Clear: every entry is gone, in memory and in the file. */
    method RemoveAll(fail: Option<Stage>) returns (ok: bool)
      modifies this
      ensures View() == Next(old(View()), Clear(fail))
      ensures peers == map[] && (ok <==> fail.None?)
      ensures ok && Faithful(c) && Sound(old(disk)) ==> Load(c, disk.main) == map[]
    {
      peers := map[];
      ok := SaveLocked(fail);
    }

    method Seen(k: Key, now: Time) returns (ok: bool)
      modifies this
      ensures View() == Next(old(View()), UpdateLastSeen(k, now))
      ensures (ok <==> k in old(peers)) && disk == old(disk)
      ensures !ok ==> View() == old(View())
      ensures ok ==>
                && dirty && k in peers && OthersKept(old(peers), peers, k)
                && peers[k].lastSeen == now && peers[k].updatedAt == now
                && peers[k].addrs == old(peers)[k].addrs && peers[k].blacklisted == old(peers)[k].blacklisted
                && peers[k].publicKey == old(peers)[k].publicKey && peers[k].metadata == old(peers)[k].metadata
                && peers[k].createdAt == old(peers)[k].createdAt
    {
      if k !in peers { return false; }
      peers := peers[k := peers[k].(lastSeen := now, updatedAt := now)];
      dirty := true;
      return true;
    }

    /** Reload, which may fail to read: the memory becomes what the file holds. */
    method ReloadFile(readable: bool) returns (ok: bool)
      modifies this
      ensures View() == Next(old(View()), Reload(readable)) && (ok <==> readable)
      ensures if ok then peers == Load(c, old(disk).main) == Load(c, disk.main) && !dirty else View() == old(View())
    {
      if !readable { return false; }
      peers, disk, dirty := Load(c, disk.main), AfterLoad(disk), false;
      return true;
    }

    /** Flush, Close and the flush tick. */
    method FlushDirty(fail: Option<Stage>) returns (ok: bool)
      modifies this
      ensures View() == Next(old(View()), Flush(fail))
      ensures (ok <==> !old(dirty) || fail.None?) && peers == old(peers) && (ok ==> !dirty)
      ensures old(dirty) && ok && Faithful(c) && Sound(old(disk)) ==> Load(c, disk.main) == peers
      ensures !old(dirty) ==> View() == old(View())
    {
      if !dirty { return true; }
      ok := SaveLocked(fail);
    }
  }
}
