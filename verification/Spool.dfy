/** The on-disk queue: a directory and counters, updated in place. */
module SpoolDirectory {
  import opened Basics
  import opened FileNames
  import opened Records
  import opened SpoolModel
  import opened SpoolRuns

  class Spool {
    const config: Config
    var dir: seq<File>
    var sequence: nat
    var queued: nat
    var delivered: nat
    var dropped: nat
    var expired: nat

    /** The listing is in name order, so no name occurs twice. */
    ghost predicate Valid()
      reads this
    {
      Sorted(dir)
    }

    ghost function Now(): State
      reads this
    {
      State(dir, sequence, queued, delivered, dropped, expired)
    }

    /** Opened on an existing directory; the counters start again. */
    constructor (config: Config, files: seq<File>)
      requires Sorted(files)
      ensures Valid() && this.config == config && Now() == EMPTY.(dir := files)
    {
      this.config, dir, sequence := config, files, 0;
      queued, delivered, dropped, expired := 0, 0, 0, 0;
    }

    method Put(sink: string, payload: Payload, bytes: nat, now: real, disk: Disk) returns (path: Option<string>)
      requires Valid()
      modifies this
      ensures Valid() && Now() == old(SpoolModel.Put(config, Now(), sink, payload, bytes, now, disk))
      ensures path == if disk == Stored then Some(old(NewName(Now(), sink, now))) else None
    {
      ghost var s := Now();
      if disk == NoDirectory {
        return None;
      }
      var file := File(NameOf(Millis(now), sequence + 1, sink), Document(sink, payload, 0, Some(now), 0.0), bytes);
      assert file == NewFile(s, sink, payload, bytes, now);
      sequence := sequence + 1;
      if disk == NoWrite {
        return None;
      }
      WriteKeepsOrder(dir, file);
      dir := Write(dir, file);
      queued := queued + 1;
      EnforceLimits();
      path := Some(file.name);
    }

    /** Unlink from the front of the listing until the total fits. */
    method EnforceLimits()
      requires Valid()
      modifies this`dir, this`dropped
      ensures Valid() && dir == Shed(config.maxBytes, old(dir))
      ensures dropped == old(dropped) + |old(dir)| - |dir|
    {
      var entries := dir;
      var total := Bytes(entries);
      ShedKeepsOrder(config.maxBytes, entries);
      if total <= config.maxBytes {
        return;
      }
      var i, count := 0, 0;
      while i < |entries| && total > config.maxBytes
        invariant 0 <= i <= |entries| && count == i && dropped == old(dropped)
        invariant dir == entries[i..] && total == Bytes(entries[i..])
        invariant Shed(config.maxBytes, entries) == Shed(config.maxBytes, entries[i..])
      {
        total := total - entries[i].bytes;
        assert entries[i..] == [entries[i]] + entries[i + 1..];
        UnlinkFirst(entries[i..]);
        dir := Unlink(dir, entries[i].name);
        count := count + 1;
        i := i + 1;
      }
      dropped := dropped + count;
    }

    method Due(now: real) returns (records: seq<Spooled>)
      requires Valid()
      ensures records == SpoolModel.Due(dir, now)
    {
      records := [];
      for i := 0 to |dir|
        invariant records + SpoolModel.Due(dir[i..], now) == SpoolModel.Due(dir, now)
      {
        assert dir[i..] == [dir[i]] + dir[i + 1..];
        if now >= dir[i].doc.nextAttempt {
          records := records + [Spooled(dir[i].name, dir[i].doc)];
        }
      }
    }

    method Succeed(record: Spooled)
      requires Valid()
      modifies this
      ensures Valid() && Now() == SpoolModel.Succeed(old(Now()), record)
    {
      UnlinkKeepsOrder(dir, record.name);
      dir := Unlink(dir, record.name);
      delivered := delivered + 1;
    }

    method Fail(record: Spooled, now: real, jitter: real, bytes: nat, written: bool)
      requires Valid()
      modifies this
      ensures Valid() && Now() == SpoolModel.Fail(config, old(Now()), record, now, jitter, bytes, written)
    {
      if Expired(config, record.doc, now) {
        UnlinkKeepsOrder(dir, record.name);
        dir := Unlink(dir, record.name);
        expired := expired + 1;
        return;
      }
      var attempts := record.doc.attempts + 1;
      var delay := BackoffDelay(attempts, config.baseBackoff, MAX_BACKOFF, jitter);
      var doc := Document(record.doc.sink, record.doc.payload, attempts, record.doc.firstQueued, now + delay);
      if written {
        WriteKeepsOrder(dir, File(record.name, doc, bytes));
        dir := Write(dir, File(record.name, doc, bytes));
      }
    }

    method PurgeExpired(now: real) returns (removed: nat)
      requires Valid()
      modifies this`dir, this`expired
      ensures Valid() && Now() == Purge(config, old(Now()), now)
      ensures removed == |old(dir)| - |dir|
    {
      var entries := dir;
      removed := 0;
      FreshKeepsOrder(config, entries, now);
      for i := 0 to |entries|
        invariant dir == PartlyPurged(config, entries, i, now) && removed == |entries| - |dir|
        invariant expired == old(expired)
      {
        PurgeOne(config, entries, i, now);
        if Expired(config, entries[i].doc, now) {
          dir := Unlink(dir, entries[i].name);
          removed := removed + 1;
        }
      }
      assert entries[..|entries|] == entries;
      expired := expired + removed;
    }
  }

  lemma UnlinkAbsent(dir: seq<File>, name: string)
    requires forall f | f in dir :: f.name != name
    ensures Unlink(dir, name) == dir
  {
    if dir != [] {
      UnlinkAbsent(dir[1..], name);
    }
  }

  lemma UnlinkFirst(dir: seq<File>)
    requires dir != [] && Sorted(dir)
    ensures Unlink(dir, dir[0].name) == dir[1..]
  {
    forall f | f in dir[1..] ensures f.name != dir[0].name {
      BeforeIsAsymmetric(dir[0].name, f.name);
    }
    UnlinkAbsent(dir[1..], dir[0].name);
  }

  lemma {:induction false} UnlinkMiddle(front: seq<File>, f: File, back: seq<File>)
    requires forall g | g in front :: Before(g.name, f.name)
    requires forall g | g in back :: Before(f.name, g.name)
    ensures Unlink(front + [f] + back, f.name) == front + back
  {
    var dir := front + [f] + back;
    if front == [] {
      forall g | g in back ensures g.name != f.name {
        BeforeIsAsymmetric(f.name, g.name);
      }
      UnlinkAbsent(back, f.name);
      assert dir[1..] == back;
    } else {
      BeforeIsAsymmetric(front[0].name, f.name);
      UnlinkMiddle(front[1..], f, back);
      assert dir[1..] == front[1..] + [f] + back;
    }
  }

  lemma {:induction false} FreshOfOneMore(c: Config, dir: seq<File>, f: File, now: real)
    ensures Expired(c, f.doc, now) ==> Fresh(c, dir + [f], now) == Fresh(c, dir, now)
    ensures !Expired(c, f.doc, now) ==> Fresh(c, dir + [f], now) == Fresh(c, dir, now) + [f]
  {
    if dir == [] {
      assert dir + [f] == [f];
      assert Fresh(c, [f][1..], now) == [];
    } else {
      assert (dir + [f])[1..] == dir[1..] + [f];
      FreshOfOneMore(c, dir[1..], f, now);
    }
  }

  /** The listing of a purge that has looked at the first `i` entries. */
  function PartlyPurged(c: Config, dir: seq<File>, i: nat, now: real): seq<File>
    requires i <= |dir|
  {
    Fresh(c, dir[..i], now) + dir[i..]
  }

  lemma PurgeOne(c: Config, dir: seq<File>, i: nat, now: real)
    requires Sorted(dir) && i < |dir|
    ensures Expired(c, dir[i].doc, now) ==> Unlink(PartlyPurged(c, dir, i, now), dir[i].name) == PartlyPurged(c, dir, i + 1, now)
    ensures !Expired(c, dir[i].doc, now) ==> PartlyPurged(c, dir, i, now) == PartlyPurged(c, dir, i + 1, now)
    ensures |PartlyPurged(c, dir, i, now)| == |PartlyPurged(c, dir, i + 1, now)| + if Expired(c, dir[i].doc, now) then 1 else 0
  {
    var front, f, back := Fresh(c, dir[..i], now), dir[i], dir[i + 1..];
    assert dir[..i + 1] == dir[..i] + [f];
    FreshOfOneMore(c, dir[..i], f, now);
    assert dir[i..] == [f] + back;
    assert front + dir[i..] == front + [f] + back;
    if Expired(c, f.doc, now) {
      FreshComesBefore(c, dir, i, now);
      UnlinkMiddle(front, f, back);
    }
  }

  lemma FreshComesBefore(c: Config, dir: seq<File>, i: nat, now: real)
    requires Sorted(dir) && i < |dir|
    ensures forall g | g in Fresh(c, dir[..i], now) :: Before(g.name, dir[i].name)
  {
    FreshKeepsOrder(c, dir[..i], now);
    forall g | g in Fresh(c, dir[..i], now) ensures Before(g.name, dir[i].name) {
      assert g in dir[..i];
    }
  }
}
