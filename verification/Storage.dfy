/** The address book file (pkg/addressbook/storage.go) and the form of its entries
    (pkg/addressbook/types.go). JSON text is taken to decode to what was encoded; a file
    whose data was not synced may hold anything after a crash; and since save never syncs the
    directory, a crash may undo renames, those of earlier saves included. */
module Storage {
  import opened Basics

  type Key = string
  type Time = nat
  type Addr = seq<int>  // a multiaddr in its binary form

  /** A peer entry in memory. An address is kept parsed; nil and empty are one value. */
  datatype Entry = Entry(addrs: seq<Addr>, publicKey: seq<int>, metadata: map<string, string>,
                            lastSeen: Time, blacklisted: bool, createdAt: Time, updatedAt: Time)

  /** The same entry in the file, with addresses as text. */
  datatype Record = Record(raw: seq<string>, publicKey: seq<int>, metadata: map<string, string>,
                           lastSeen: Time, blacklisted: bool, createdAt: Time, updatedAt: Time)

  type Peers = map<Key, Entry>
  type Doc = map<Key, Record>

  /** The multiaddr library: printing, and parsing that may refuse. */
  datatype Codec = Codec(show: Addr -> string, parse: string -> Option<Addr>)

  ghost predicate Faithful(c: Codec) { forall a :: c.parse(c.show(a)) == Some(a) }

  // ---- Entries ----

  function Encode(c: Codec, e: Entry): Record {
    Record(seq(|e.addrs|, i requires 0 <= i < |e.addrs| => c.show(e.addrs[i])), e.publicKey, e.metadata,
           e.lastSeen, e.blacklisted, e.createdAt, e.updatedAt)
  }

  /** UnmarshalJSON: addresses that do not parse are skipped. */
  function Parsed(c: Codec, raw: seq<string>): seq<Addr>
    decreases |raw|
  {
    if |raw| == 0 then [] else
    var init, a := Parsed(c, raw[..|raw| - 1]), c.parse(raw[|raw| - 1]);
    if a.Some? then init + [a.value] else init
  }

  method ParseAddrs(c: Codec, raw: seq<string>) returns (addrs: seq<Addr>)
    ensures addrs == Parsed(c, raw)
  {
    addrs := [];
    for i := 0 to |raw|
      invariant addrs == Parsed(c, raw[..i])
    {
      assert raw[..i + 1][..i] == raw[..i];
      var a := c.parse(raw[i]);
      if a.Some? { addrs := addrs + [a.value]; }
    }
    assert raw[..|raw|] == raw;
  }

  function Decode(c: Codec, r: Record): Entry {
    Entry(Parsed(c, r.raw), r.publicKey, r.metadata, r.lastSeen, r.blacklisted, r.createdAt, r.updatedAt)
  }

  lemma {:induction false} PrintedParses(c: Codec, addrs: seq<Addr>, raw: seq<string>)
    requires Faithful(c) && |raw| == |addrs| && forall i :: 0 <= i < |addrs| ==> raw[i] == c.show(addrs[i])
    ensures Parsed(c, raw) == addrs
    decreases |raw|
  {
    if |raw| > 0 {
      PrintedParses(c, addrs[..|addrs| - 1], raw[..|raw| - 1]);
      assert addrs == addrs[..|addrs| - 1] + [addrs[|addrs| - 1]];
    }
  }

  /** One address that does not parse costs itself and no other. */
  lemma {:induction false} ParsedPlus(c: Codec, a: seq<string>, b: seq<string>)
    ensures Parsed(c, a + b) == Parsed(c, a) + Parsed(c, b)
    ensures forall s :: Parsed(c, [s]) == if c.parse(s).Some? then [c.parse(s).value] else []
    decreases |b|
  {
    forall s ensures Parsed(c, [s]) == if c.parse(s).Some? then [c.parse(s).value] else [] {
      assert [s][..0] == [];
    }
    if |b| == 0 {
      assert a + b == a;
    } else {
      assert (a + b)[..|a + b| - 1] == a + b[..|b| - 1];
      ParsedPlus(c, a, b[..|b| - 1]);
    }
  }

  function EncodeAll(c: Codec, peers: Peers): Doc { map k | k in peers :: Encode(c, peers[k]) }

  function DecodeAll(c: Codec, doc: Doc): Peers { map k | k in doc :: Decode(c, doc[k]) }

  lemma BookRoundTrip(c: Codec, peers: Peers)
    requires Faithful(c)
    ensures DecodeAll(c, EncodeAll(c, peers)) == peers
  {
    forall k | k in peers ensures Decode(c, Encode(c, peers[k])) == peers[k] {
      PrintedParses(c, peers[k].addrs, Encode(c, peers[k]).raw);
    }
  }

  // ---- Files ----

  datatype Content = Blank | Garbage | Text(doc: Doc)

  datatype File = File(content: Content, synced: bool)

  /** The two names `save` works with. `past` is what the main name was bound to before
      renames that the directory on disk may not show yet. */
  datatype Disk = Disk(main: Option<File>, temp: Option<File>, past: set<Option<File>>)

  /** The stages of save that can fail; without a failure all of them pass. */
  datatype Stage = Lock | Directory | OpenTemp | Write | Sync | CloseTemp | Rename

  /** load: a missing or blank file is an empty book, and so is one that does not parse,
      which is moved out of the way. */
  function Load(c: Codec, file: Option<File>): Peers {
    if file.Some? && file.value.content.Text? then DecodeAll(c, file.value.content.doc) else map[]
  }

  function AfterLoad(d: Disk): Disk {
    if d.main.Some? && d.main.value.content.Garbage? then d.(main := None, past := d.past + {d.main}) else d
  }

  /** Loading moves a file that does not parse out of the way, leaves every other one alone, and
      does not change what loads. */
  lemma LoadedExactly(c: Codec, d: Disk)
    ensures Load(c, AfterLoad(d).main) == Load(c, d.main)
    ensures AfterLoad(d).main.Some? ==> AfterLoad(d) == d && d.main.value.content != Garbage
    ensures d.main.Some? && d.main.value.content.Text? ==> Load(c, d.main) == DecodeAll(c, d.main.value.content.doc)
    ensures d.main.None? || !d.main.value.content.Text? ==> Load(c, d.main) == map[]
    ensures Sound(d) ==> Sound(AfterLoad(d))
  {}

  /** The states of the disk during a save, from the one it starts in to the one it returns
      in. A failed write may leave anything in the temporary file before it is removed. */
  function Trace(d: Disk, doc: Doc, fail: Option<Stage>, partial: Content): seq<Disk> {
    var created := d.(temp := Some(File(Blank, false)));
    var writing := d.(temp := Some(File(partial, false)));
    var written := d.(temp := Some(File(Text(doc), false)));
    var durable := d.(temp := Some(File(Text(doc), true)));
    var removed := d.(temp := None);
    var renamed := Disk(durable.temp, None, d.past + {d.main});
    match fail
    case Some(Lock) => [d]
    case Some(Directory) => [d]
    case Some(OpenTemp) => [d]
    case Some(Write) => [d, created, writing, removed]
    case Some(Sync) => [d, created, writing, written, removed]
    case Some(CloseTemp) => [d, created, writing, written, durable, removed]
    case Some(Rename) => [d, created, writing, written, durable, removed]
    case None => [d, created, writing, written, durable, renamed]
  }

  /** What a file may turn out to hold after a crash: unsynced data may be torn. */
  ghost predicate MayBecome(file: Option<File>, after: Option<File>) {
    if file.None? then after.None?
    else after.Some? && (file.value.synced ==> after.value.content == file.value.content)
  }

  /** `after` is a possible main file after a crash in state `d`. */
  ghost predicate CrashMain(d: Disk, after: Option<File>) {
    MayBecome(d.main, after) || exists p :: p in d.past && MayBecome(p, after)
  }

  /** No torn file can be reached by the main name, now or after a crash. */
  predicate Sound(d: Disk) {
    (d.main.Some? ==> d.main.value.synced) && forall p :: p in d.past && p.Some? ==> p.value.synced
  }

  /** `peers` is a book that an earlier save had replaced on disk `d`. */
  ghost predicate Earlier(c: Codec, d: Disk, peers: Peers) { exists p :: p in d.past && Load(c, p) == peers }

  lemma SoundCrash(c: Codec, d: Disk, after: Option<File>)
    requires Sound(d) && CrashMain(d, after)
    ensures Load(c, after) == Load(c, d.main) || Earlier(c, d, Load(c, after))
  {
    if !MayBecome(d.main, after) {
      var p :| p in d.past && MayBecome(p, after);
      assert Load(c, after) == Load(c, p);
    }
  }

  /** Whatever stage save fails at, or none, and at whichever point of it the machine stops,
      no torn book loads afterwards: it is the old one, or the new one after the rename, or a
      complete one from before a rename that is not on disk yet. */
  lemma CrashLoadsWholeBook(c: Codec, d: Disk, doc: Doc, fail: Option<Stage>, partial: Content,
                            i: nat, after: Option<File>)
    requires Sound(d) && i < |Trace(d, doc, fail, partial)|
    requires CrashMain(Trace(d, doc, fail, partial)[i], after)
    ensures || Load(c, after) == Load(c, d.main)
            || Earlier(c, d, Load(c, after))
            || (fail.None? && i == |Trace(d, doc, fail, partial)| - 1 && Load(c, after) == DecodeAll(c, doc))
  {
    var e := Trace(d, doc, fail, partial)[i];
    assert Sound(e);
    SoundCrash(c, e, after);
    if Earlier(c, e, Load(c, after)) {
      var p :| p in e.past && Load(c, p) == Load(c, after);
      assert p in d.past || p == d.main;
    }
  }

  /** A save of `doc` on disk `d` is atomic: whatever fails and wherever the machine stops,
      the old or the new book loads. */
  ghost predicate Atomic(c: Codec, d: Disk, doc: Doc) {
    forall fail, partial, i: nat, after ::
      i < |Trace(d, doc, fail, partial)| && CrashMain(Trace(d, doc, fail, partial)[i], after) ==>
        Load(c, after) == Load(c, d.main) || Load(c, after) == DecodeAll(c, doc)
  }

  /** Every rename has reached the disk, as far as a reader can tell. */
  ghost predicate Settled(c: Codec, d: Disk) { forall p :: p in d.past ==> Load(c, p) == Load(c, d.main) }

  /** Every save on a disk is atomic if and only if the earlier renames have settled. */
  lemma AtomicExactly(c: Codec, d: Disk)
    requires Sound(d)
    ensures Settled(c, d) <==> forall doc :: Atomic(c, d, doc)
  {
    if Settled(c, d) {
      forall doc ensures Atomic(c, d, doc) {
        forall fail, partial, i: nat, after |
          i < |Trace(d, doc, fail, partial)| && CrashMain(Trace(d, doc, fail, partial)[i], after)
          ensures Load(c, after) == Load(c, d.main) || Load(c, after) == DecodeAll(c, doc)
        {
          CrashLoadsWholeBook(c, d, doc, fail, partial, i, after);
        }
      }
    } else {
      var p :| p in d.past && Load(c, p) != Load(c, d.main);
      var doc := if d.main.Some? && d.main.value.content.Text? then d.main.value.content.doc else map[];
      assert DecodeAll(c, doc) == Load(c, d.main);
      assert Trace(d, doc, Some(Lock), Blank)[0] == d;
      assert MayBecome(p, p) && CrashMain(Trace(d, doc, Some(Lock), Blank)[0], p);
      assert !Atomic(c, d, doc);
    }
  }

  /** What a save leaves on the disk when it returns: a failed one the file and the history as
      they were, a successful one the synced document as the file and the old file in the
      history; and no temporary file, once it had opened one. */
  lemma SaveLeaves(d: Disk, doc: Doc, fail: Option<Stage>, partial: Content)
    ensures var t := Trace(d, doc, fail, partial); var last := t[|t| - 1];
      && t[0] == d
      && (fail.Some? ==> last.main == d.main && last.past == d.past)
      && (fail.None? ==> last.main == Some(File(Text(doc), true)) && last.past == d.past + {d.main})
      && last.temp == if fail == Some(Lock) || fail == Some(Directory) || fail == Some(OpenTemp) then d.temp else None
  {}

  /** What a save leaves behind when it returns. */
  lemma SaveOutcome(c: Codec, d: Disk, peers: Peers, fail: Option<Stage>, partial: Content)
    requires Faithful(c) && Sound(d)
    ensures var t := Trace(d, EncodeAll(c, peers), fail, partial); var last := t[|t| - 1];
      && Sound(last)
      && Load(c, last.main) == (if fail.None? then peers else Load(c, d.main))
  {
    BookRoundTrip(c, peers);
  }

  /** save, one file operation after the other, with the cleanup of each failure path;
      `steps` are the states of the disk it passes through. */
  method Save(d: Disk, doc: Doc, fail: Option<Stage>, partial: Content)
    returns (ok: bool, disk: Disk, ghost steps: seq<Disk>)
    ensures steps == Trace(d, doc, fail, partial) && disk == steps[|steps| - 1]
    ensures ok <==> fail.None?
  {
    disk := d;
    steps := [disk];
    if fail == Some(Lock) { return false, disk, steps; }
    if fail == Some(Directory) { return false, disk, steps; }
    if fail == Some(OpenTemp) { return false, disk, steps; }
    disk := disk.(temp := Some(File(Blank, false)));
    steps := steps + [disk];
    disk := disk.(temp := Some(File(partial, false)));
    steps := steps + [disk];
    if fail == Some(Write) {
      disk := disk.(temp := None);
      return false, disk, steps + [disk];
    }
    disk := disk.(temp := Some(File(Text(doc), false)));
    steps := steps + [disk];
    if fail == Some(Sync) {
      disk := disk.(temp := None);
      return false, disk, steps + [disk];
    }
    disk := disk.(temp := Some(disk.temp.value.(synced := true)));
    steps := steps + [disk];
    if fail == Some(CloseTemp) || fail == Some(Rename) {
      disk := disk.(temp := None);
      return false, disk, steps + [disk];
    }
    disk := Disk(disk.temp, None, disk.past + {disk.main});
    return true, disk, steps + [disk];
  }
}
