/**
 The receipt store used by one caller at a time: making room, saving, taking.
 Files that others have locked are given as busy.
 */
module ReceiptDirectory {
  import opened Wrappers
  import opened ReceiptStore

  /** The disk of one finished save, and of one finished take. */
  function SavedDisk(d: Disk, name: string, inode: int, payload: Payload): Disk {
    SyncFile(SealFile(NewFile(d, name, inode), inode, payload), inode)
  }

  function UsedDisk(d: Disk, inode: int): Disk
    requires inode in d.files
  {
    Unlinked(SyncFile(PutContent(PutContent(d, inode, Malformed), inode, Used), inode), inode)
  }

  predicate CanTake(d: Disk, claims: Claims) {
    claims.receipt in d.names && d.names[claims.receipt] in d.files
    && Linked(d, d.names[claims.receipt]) && Takeable(d.files[d.names[claims.receipt]], claims, d.now)
  }

  /** A saved receipt is taken with its callback, by its context and in time;
      and then it is gone for every claim on it. */
  lemma SaveThenTake(d: Disk, name: string, inode: int, payload: Payload, later: nat, claims: Claims)
    requires inode !in d.files && payload.sealedAt == d.now && claims.receipt == name
    ensures var saved := SavedDisk(d, name, inode, payload).(now := d.now + later);
      && (CanTake(saved, claims) <==> claims.context == payload.context && later <= 120 && saved.now < payload.exp)
      && saved.files[inode].content == Sealed(payload)
      && (CanTake(saved, claims) ==> forall other: Claims :: other.receipt == name ==>
        !CanTake(UsedDisk(saved, inode), other))
  {
  }

  ghost predicate Removed(before: Disk, after: Disk, from: seq<string>, busy: set<int>) {
    && after == before.(names := after.names)
    && (forall n :: n in after.names ==> n in before.names && after.names[n] == before.names[n])
    && (forall n :: n in before.names && n !in after.names ==> n in from && MayGo(before, n, busy))
  }

  predicate MayGo(d: Disk, n: string, busy: set<int>)
    requires n in d.names
  {
    d.names[n] in d.files && d.names[n] !in busy && Reapable(d.files[d.names[n]], d.now)
  }

  /** A name that a reap leaves alone: of a locked file, of a receipt that has
      not expired, or of an unreadable file no older than ten minutes. */
  predicate Spared(d: Disk, n: string, busy: set<int>)
    requires n in d.names && d.names[n] in d.files
  {
    d.names[n] in busy || Alive(d.files[d.names[n]], d.now)
  }

  /** The first i candidates have been gone through. */
  ghost predicate Reaped(before: Disk, d: Disk, from: seq<string>, i: nat, busy: set<int>) {
    && Removed(before, d, from, busy)
    && (forall j :: i <= j < |from| ==> from[j] in d.names && from[j] in before.names)
    && (forall j :: 0 <= j < i <= |from| && from[j] in d.names ==>
      from[j] in before.names && !MayGo(before, from[j], busy))
  }

  lemma ReapOne(before: Disk, d: Disk, from: seq<string>, i: nat, busy: set<int>)
    requires DiskOk(before) && Candidates(before, from) && Reaped(before, d, from, i, busy) && i < |from|
    ensures var inode := d.names[from[i]];
      inode in d.files && d.files[inode].name == from[i] && Linked(d, inode)
      && if MayGo(d, from[i], busy)
         then Reaped(before, Unlinked(d, inode), from, i + 1, busy) && |Unlinked(d, inode).names| == |d.names| - 1
         else Reaped(before, d, from, i + 1, busy)
  {
    var inode := d.names[from[i]];
    assert d.names[from[i]] == before.names[from[i]] && before.files == d.files;
    assert inode in d.files && d.files[inode].name == from[i];
    if MayGo(d, from[i], busy) {
      FewerNames(d.names, from[i]);
      UnlinkCandidate(before, d, from, i, busy);
    }
  }

  lemma UnlinkCandidate(before: Disk, d: Disk, from: seq<string>, i: nat, busy: set<int>)
    requires Candidates(before, from) && Reaped(before, d, from, i, busy) && i < |from| && MayGo(before, from[i], busy)
    requires d.names[from[i]] in d.files && d.files[d.names[from[i]]].name == from[i]
    ensures Reaped(before, Unlinked(d, d.names[from[i]]), from, i + 1, busy)
  {
    assert from[i] in from;
  }

  lemma SavedKeepsDisk(d: Disk, name: string, inode: int, payload: Payload)
    requires DiskOk(d) && inode !in d.files && name !in d.names
    ensures DiskOk(SavedDisk(d, name, inode, payload)) && |SavedDisk(d, name, inode, payload).names| <= |d.names| + 1
  {
    NewKeepsDisk(d, name, inode);
    OneMoreName(d.names, name, inode);
    var created := NewFile(d, name, inode);
    SealKeepsDisk(created, inode, payload);
    SyncKeepsDisk(SealFile(created, inode, payload), inode);
  }

  /** What a save leaves, given the room that its reaping made. */
  ghost predicate SaveEnds(before: Disk, room: Disk, from: seq<string>, busy: set<int>, after: Disk, saved: bool,
      name: string, inode: int, payload: Payload) {
    && Candidates(before, from) && Removed(before, room, from, busy)
    && saved == (|room.names| < 1000 && name !in room.names)
    && after == if saved then SavedDisk(room, name, inode, payload) else room
  }

  class Store {
    var disk: Disk

    /** The oldest names first, no more than one reap looks at. */
    method Oldest() returns (c: seq<string>)
      requires DiskOk(disk)
      ensures Candidates(disk, c)
    {
      c := [];
      var rest := disk.names.Keys;
      while |c| < REAP_SCAN && rest != {}
        invariant |c| <= REAP_SCAN && forall i, j :: 0 <= i < j < |c| ==> c[i] != c[j]
        invariant forall n :: n in disk.names <==> n in c || n in rest
        invariant forall n :: n in c ==> n !in rest
        invariant forall n, m :: n in c && m in rest ==> OldestFirst(disk, n, m)
        decreases |rest|
      {
        var n := OldestOf(rest);
        c, rest := c + [n], rest - {n};
      }
    }

    method OldestOf(rest: set<string>) returns (n: string)
      requires DiskOk(disk) && rest != {} && forall m :: m in rest ==> m in disk.names
      ensures n in rest && forall m :: m in rest ==> OldestFirst(disk, n, m)
    {
      n :| n in rest;
      var scan := rest - {n};
      while scan != {}
        invariant n in rest && scan <= rest
        invariant forall m :: m in rest && m !in scan ==> OldestFirst(disk, n, m)
      {
        var m :| m in scan;
        if disk.files[disk.names[m]].mtime < disk.files[disk.names[n]].mtime { n := m; }
        scan := scan - {m};
      }
    }

    /** `_reap_receipts`: only what may go goes, and while the limit is not
        reached all of it among the candidates. */
    method Reap(busy: set<int>) returns (removed: nat, ghost from: seq<string>)
      requires DiskOk(disk)
      modifies this
      ensures DiskOk(disk) && Candidates(old(disk), from) && Removed(old(disk), disk, from, busy)
      ensures removed <= 64 && |from| <= 256 && |disk.names| == |old(disk).names| - removed
      ensures |from| < 256 ==> forall n :: n in old(disk).names ==> n in from
      ensures forall n :: n in old(disk).names && Spared(old(disk), n, busy) ==> n in disk.names
      ensures removed < 64 ==> forall n :: n in from && !Spared(old(disk), n, busy) ==> n !in disk.names
    {
      ghost var before := disk;
      var candidates := Oldest();
      from, removed := candidates, 0;
      var i := 0;
      while i < |candidates| && removed < REAP_LIMIT
        invariant i <= |candidates| && removed <= REAP_LIMIT
        invariant DiskOk(disk) && |disk.names| == |before.names| - removed
        invariant Reaped(before, disk, candidates, i, busy)
      {
        var inode := disk.names[candidates[i]];
        ReapOne(before, disk, candidates, i, busy);
        var file := disk.files[inode];
        var expired := file.content == Used;
        if file.content.Sealed? { expired := file.content.payload.exp <= disk.now; }
        if file.content == Malformed { expired := file.mtime < disk.now - 600; }
        if inode !in busy && expired {
          UnlinkKeepsDisk(disk, inode);
          disk := Unlinked(disk, inode);
          removed := removed + 1;
        }
        i := i + 1;
      }
    }

    /** `_save_receipt`: the chosen name and the file's identity are given. */
    method Save(context: Context, callback: string, until: int, name: string, inode: int, busy: set<int>)
        returns (saved: bool, ghost room: Disk, ghost from: seq<string>)
      requires DiskOk(disk) && inode !in disk.files
      modifies this
      ensures DiskOk(disk) && (|old(disk).names| <= 1000 ==> |disk.names| <= 1000)
      ensures SaveEnds(old(disk), room, from, busy, disk, saved, name, inode,
        Payload(context, callback, Min(until, old(disk.now) + 120), old(disk.now)))
    {
      var removed;
      removed, from := Reap(busy);
      room := disk;
      var payload := Payload(context, callback, Min(until, disk.now + 120), disk.now);
      saved := |disk.names| < 1000 && name !in disk.names;
      if saved {
        SavedKeepsDisk(disk, name, inode, payload);
        WriteReceipt(name, inode, payload);
      }
    }

    method WriteReceipt(name: string, inode: int, payload: Payload)
      modifies this
      ensures disk == SavedDisk(old(disk), name, inode, payload)
    {
      disk := NewFile(disk, name, inode);
      disk := SealFile(disk, inode, payload);
      disk := SyncFile(disk, inode);
    }

    /** `_take_receipt`. */
    method Take(claims: Claims) returns (taken: Option<Payload>)
      modifies this
      ensures taken.Some? <==> old(CanTake(disk, claims))
      ensures taken.None? ==> disk == old(disk)
      ensures taken.Some? ==> old(disk.files[disk.names[claims.receipt]].content) == Sealed(taken.value)
      ensures taken.Some? ==> disk == UsedDisk(old(disk), old(disk.names[claims.receipt]))
    {
      if claims.receipt !in disk.names || disk.names[claims.receipt] !in disk.files { return None; }
      var inode := disk.names[claims.receipt];
      var file := disk.files[inode];
      if file.name !in disk.names || disk.names[file.name] != inode || !file.content.Sealed? { return None; }
      var payload := file.content.payload;
      if payload.sealedAt + 120 < disk.now || payload.exp <= disk.now { return None; }
      var asked, sealed := claims.context, payload.context;
      if asked.session != sealed.session || asked.actor != sealed.actor || asked.tenant != sealed.tenant
         || asked.store != sealed.store || asked.config != sealed.config {
        return None;
      }
      taken := Some(payload);
      disk := PutContent(disk, inode, Malformed);
      disk := PutContent(disk, inode, Used);
      disk := SyncFile(disk, inode);
      disk := Unlinked(disk, inode);
    }
  }
}
