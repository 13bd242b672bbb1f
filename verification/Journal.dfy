/**
 The retirement journal: for every registration that may have to be removed,
 a proof of whose it is. A proof can only gain its registration ID.
 */
module Journals {
  import opened Disk
  import opened Text

  datatype Disposition = SettleActualUsage | ForfeitReservation

  datatype Proof = Proof(name: string, id: int, scaleSet: int, lease: string, disposition: Disposition, stoppedAt: int,
                         requestedAt: int)

  type Journal = map<string, Proof>

  predicate AllHex(s: string) {
    forall i :: 0 <= i < |s| ==> HexDigit(s[i])
  }

  /** runner- and eight hexadecimal digits, or a whole lower-case UUID. */
  predicate Managed(name: string) {
    && |name| >= 7 && name[..7] == "runner-"
    && var id := name[7..];
    || (|id| == 8 && AllHex(id))
    || (|id| == 36 && id[8] == '-' && id[13] == '-' && id[18] == '-' && id[23] == '-'
        && AllHex(id[..8]) && AllHex(id[9..13]) && AllHex(id[14..18]) && AllHex(id[19..23]) && AllHex(id[24..]))
  }

  predicate ValidProof(p: Proof) {
    Managed(p.name) && p.id >= 0 && p.scaleSet >= 1 && p.lease != ""
  }

  /** The same registration: nothing but an unknown ID may differ. */
  predicate SameProof(a: Proof, b: Proof) {
    && a.name == b.name && a.scaleSet == b.scaleSet && a.lease == b.lease && a.disposition == b.disposition
    && (a.id == 0 || b.id == a.id)
  }

  /** Whether p may be written over what the journal says. */
  predicate Accepts(j: Journal, p: Proof) {
    && ValidProof(p)
    && (p.name in j ==>
          var q := j[p.name];
          && q.scaleSet == p.scaleSet && q.lease == p.lease && q.disposition == p.disposition
          && (q.id == 0 || p.id == 0 || q.id == p.id))
  }

  /** What is written: p, completed by what was known before. */
  function Merged(j: Journal, p: Proof): Proof {
    if p.name !in j then p
    else
      var q := j[p.name];
      p.(id := if p.id == 0 then q.id else p.id,
         stoppedAt := if p.stoppedAt == 0 then q.stoppedAt else p.stoppedAt,
         requestedAt := if q.requestedAt != 0 then q.requestedAt else p.requestedAt)
  }

  predicate Named(j: Journal) {
    forall n :: n in j ==> j[n].name == n && ValidProof(j[n])
  }

  /** Entries in both journals are proofs of the same registration. */
  ghost predicate Stable(before: Journal, after: Journal) {
    forall n :: n in before && n in after ==> SameProof(before[n], after[n])
  }

  lemma MergeKeeps(j: Journal, p: Proof)
    requires Named(j) && Accepts(j, p)
    ensures Named(j[p.name := Merged(j, p)]) && Stable(j, j[p.name := Merged(j, p)])
  {
    hide Managed;
  }

  /** Nothing known is lost: an ID that either has, the stop time reported last,
      the request made first. Writing the proof again changes nothing. */
  lemma MergedMeans(j: Journal, p: Proof)
    requires Accepts(j, p)
    ensures var m := Merged(j, p);
            && m.name == p.name && m.scaleSet == p.scaleSet && m.lease == p.lease && m.disposition == p.disposition
            && (p.id != 0 ==> m.id == p.id) && (p.stoppedAt != 0 ==> m.stoppedAt == p.stoppedAt)
            && if p.name in j then
              && (j[p.name].id != 0 ==> m.id == j[p.name].id) && (p.id == j[p.name].id == 0 ==> m.id == 0)
              && (p.stoppedAt == 0 ==> m.stoppedAt == j[p.name].stoppedAt)
              && m.requestedAt == (if j[p.name].requestedAt != 0 then j[p.name].requestedAt else p.requestedAt)
            else m == p
    ensures Accepts(j[p.name := Merged(j, p)], p) && Merged(j[p.name := Merged(j, p)], p) == Merged(j, p)
  {
    hide Managed;
  }

  lemma StillStable(j: Journal)
    requires Named(j)
    ensures Stable(j, j)
  {
  }

  /** Whether a proof may be written, and what then is. */
  method Complete(j: Journal, p: Proof) returns (ok: bool, entry: Proof)
    ensures ok <==> Accepts(j, p)
    ensures ok ==> entry == Merged(j, p)
  {
    hide Managed;
    entry := p;
    if !Managed(p.name) || p.id < 0 || p.scaleSet < 1 || p.lease == "" { return false, p; }
    if p.name in j {
      var previous := j[p.name];
      if previous.scaleSet != p.scaleSet || previous.lease != p.lease || previous.disposition != p.disposition { return false, p; }
      if previous.id != 0 && p.id != 0 && previous.id != p.id { return false, p; }
      if p.id == 0 { entry := entry.(id := previous.id); }
      if p.stoppedAt == 0 { entry := entry.(stoppedAt := previous.stoppedAt); }
      if previous.requestedAt != 0 { entry := entry.(requestedAt := previous.requestedAt); }
    }
    ok := true;
  }

  class RetirementQueue {
    var entries: Journal
    var file: Journal

    ghost predicate Valid()
      reads this
    {
      Named(entries) && Named(file)
    }

    constructor ()
      ensures Valid() && entries == map[] && file == map[]
    {
      entries, file := map[], map[];
    }

    method Persist(write: Write) returns (ok: bool)
      modifies `file
      ensures ok <==> write.Committed?
      ensures file == if write.Failed? then old(file) else entries
    {
      if !write.Failed? { file := entries; }
      ok := write.Committed?;
    }

    /** Records a proof. It never replaces another registration's proof, and a
        failed write leaves memory as it was. */
    method Put(p: Proof, write: Write) returns (ok: bool)
      requires Valid()
      modifies this
      ensures Valid() && Stable(old(entries), entries)
      ensures ok <==> Accepts(old(entries), p) && write.Committed?
      ensures entries == if ok then old(entries)[p.name := Merged(old(entries), p)] else old(entries)
      ensures file == if Accepts(old(entries), p) && !write.Failed? then old(entries)[p.name := Merged(old(entries), p)] else old(file)
    {
      hide Managed, Named, Merged, Accepts, ValidProof, Stable;
      StillStable(entries);
      var accepted, entry := Complete(entries, p);
      if !accepted { return false; }
      MergeKeeps(entries, p);
      var known := p.name in entries;
      var previous := if known then entries[p.name] else p;
      entries := entries[p.name := entry];
      ok := Persist(write);
      if !ok {
        if known { entries := entries[p.name := previous]; } else { entries := entries - {p.name}; }
        assert entries == old(entries);
      }
    }

    method Remove(name: string, write: Write) returns (ok: bool)
      requires Valid()
      modifies this
      ensures Valid() && Stable(old(entries), entries)
      ensures ok <==> name !in old(entries) || write.Committed?
      ensures entries == if ok then old(entries) - {name} else old(entries)
      ensures file == if name in old(entries) && !write.Failed? then old(entries) - {name} else old(file)
    {
      if name !in entries {
        assert entries == entries - {name};
        return true;
      }
      var previous := entries[name];
      entries := entries - {name};
      ok := Persist(write);
      if !ok {
        entries := entries[name := previous];
        assert entries == old(entries);
      }
    }

    /** Every proof, once, in the order of the names. */
    method All() returns (all: seq<Proof>)
      requires Valid()
      ensures forall i :: 0 <= i < |all| ==> all[i].name in entries && entries[all[i].name] == all[i]
      ensures forall n :: n in entries ==> entries[n] in all
      ensures Ordered(all)
    {
      all := [];
      var left := entries.Keys;
      while left != {}
        invariant left <= entries.Keys && Ordered(all)
        invariant forall p :: p in all <==> p.name in entries && p.name !in left && entries[p.name] == p
      {
        var n :| n in left;
        assert entries[n].name == n;
        all := Inserted(all, entries[n]);
        left := left - {n};
      }
    }
  }

  // ---- the order of names ----

  predicate Precedes(a: string, b: string) {
    if b == [] then false else if a == [] then true else a[0] < b[0] || (a[0] == b[0] && Precedes(a[1..], b[1..]))
  }

  predicate Ordered(ps: seq<Proof>) {
    forall i, k :: 0 <= i < k < |ps| ==> Precedes(ps[i].name, ps[k].name)
  }

  lemma {:induction false} EitherPrecedes(a: string, b: string)
    requires a != b
    ensures Precedes(a, b) || Precedes(b, a)
  {
    if a != [] && b != [] && a[0] == b[0] {
      assert a == [a[0]] + a[1..] && b == [b[0]] + b[1..];
      EitherPrecedes(a[1..], b[1..]);
    }
  }

  lemma {:induction false} PrecedesTrans(a: string, b: string, c: string)
    requires Precedes(a, b) && Precedes(b, c)
    ensures Precedes(a, c)
  {
    if a != [] && a[0] == b[0] == c[0] { PrecedesTrans(a[1..], b[1..], c[1..]); }
  }

  /** A proof put where its name belongs. */
  function Inserted(ps: seq<Proof>, p: Proof): (r: seq<Proof>)
    requires Ordered(ps) && forall q :: q in ps ==> q.name != p.name
    ensures Ordered(r) && multiset(r) == multiset(ps) + multiset{p} && forall q :: q in r <==> q in ps || q == p
  {
    if ps == [] then [p]
    else
      var last := ps[|ps| - 1];
      assert ps == ps[..|ps| - 1] + [last];
      EitherPrecedes(p.name, last.name);
      if Precedes(last.name, p.name) then InsertLast(ps, p); ps + [p]
      else
        InsertBefore(ps, p);
        Inserted(ps[..|ps| - 1], p) + [last]
  }

  lemma InsertLast(ps: seq<Proof>, p: Proof)
    requires Ordered(ps) && ps != [] && Precedes(ps[|ps| - 1].name, p.name)
    ensures Ordered(ps + [p])
  {
    forall i | 0 <= i < |ps| ensures Precedes(ps[i].name, p.name) {
      if i < |ps| - 1 { PrecedesTrans(ps[i].name, ps[|ps| - 1].name, p.name); }
    }
  }

  lemma InsertBefore(ps: seq<Proof>, p: Proof)
    requires Ordered(ps) && ps != [] && Precedes(p.name, ps[|ps| - 1].name)
    ensures forall q :: q in ps[..|ps| - 1] || q == p ==> Precedes(q.name, ps[|ps| - 1].name)
  {
  }

  // ---- over a whole run ----

  datatype Change = Put(proof: Proof, write: Write) | Remove(name: string, write: Write)

  /** What is in memory after a change, whatever became of its write. */
  function After(j: Journal, change: Change): Journal {
    match change
    case Put(p, write) => if Accepts(j, p) && write.Committed? then j[p.name := Merged(j, p)] else j
    case Remove(n, write) => if write.Committed? then j - {n} else j
  }

  function AfterAll(j: Journal, changes: seq<Change>): Journal {
    if changes == [] then j else After(AfterAll(j, changes[..|changes| - 1]), changes[|changes| - 1])
  }

  /** However many changes are tried and fail, an entry that stays in the
      journal stays a proof of the same registration, and an ID once bound
      never changes. */
  lemma {:induction false} ProofsNeverChange(j: Journal, changes: seq<Change>, name: string)
    requires Named(j) && name in j
    requires forall i :: 0 <= i <= |changes| ==> name in AfterAll(j, changes[..i])
    ensures Named(AfterAll(j, changes)) && SameProof(j[name], AfterAll(j, changes[..|changes|])[name])
    decreases |changes|
  {
    assert changes[..|changes|] == changes;
    if changes != [] {
      var front := changes[..|changes| - 1];
      forall i | 0 <= i <= |front| ensures name in AfterAll(j, front[..i]) {
        assert front[..i] == changes[..i];
      }
      ProofsNeverChange(j, front, name);
      assert front[..|front|] == front;
    }
  }

  // ---- and in the file ----

  /** The journal in memory and as last written. */
  datatype Copies = Copies(memory: Journal, file: Journal)

  /** What a change would write. */
  function Candidate(j: Journal, change: Change): Journal {
    match change
    case Put(p, _) => if Accepts(j, p) then j[p.name := Merged(j, p)] else j
    case Remove(n, _) => j - {n}
  }

  /** Whether the file is replaced: the change is one, and the write gets so
      far. */
  predicate Written(j: Journal, change: Change) {
    && !change.write.Failed?
    && (if change.Put? then Accepts(j, change.proof) else change.name in j)
  }

  function Saved(d: Copies, change: Change): Copies {
    Copies(After(d.memory, change), if Written(d.memory, change) then Candidate(d.memory, change) else d.file)
  }

  function SavedAll(d: Copies, changes: seq<Change>): Copies {
    if changes == [] then d else Saved(SavedAll(d, changes[..|changes| - 1]), changes[|changes| - 1])
  }

  /** Memory and file speak of the same registration; an ID that memory has,
      the file has. */
  predicate Consistent(d: Copies, name: string) {
    name in d.memory && name in d.file ==>
      && SameBut(d.memory[name], d.file[name])
      && (d.memory[name].id != 0 ==> d.file[name].id == d.memory[name].id)
  }

  /** The same registration, whatever its ID. */
  predicate SameBut(a: Proof, b: Proof) {
    a.name == b.name && a.scaleSet == b.scaleSet && a.lease == b.lease && a.disposition == b.disposition
  }

  /** When the ID in the file changes: exactly when memory does not know it,
      as the write that bound it reported an error, and a change is written
      that is not the binding of this very ID. */
  lemma FileIdChanges(d: Copies, change: Change, name: string)
    requires Named(d.memory) && Named(d.file) && Consistent(d, name) && name in d.memory && name in d.file
    requires d.file[name].id != 0
    requires name in Saved(d, change).memory && name in Saved(d, change).file
    ensures Saved(d, change).file[name].id != d.file[name].id <==>
            && d.memory[name].id == 0 && Written(d.memory, change)
            && !(change.Put? && change.proof.name == name && change.proof.id == d.file[name].id)
    ensures Consistent(Saved(d, change), name) && SameBut(d.file[name], Saved(d, change).file[name])
  {
    hide Managed;
  }

  /** However many changes are tried and fail, as long as memory holds a proof
      the file's is of the same registration; and once memory knows its ID,
      the file's never changes. */
  lemma {:induction false} FileProofs(d: Copies, changes: seq<Change>, name: string)
    requires Named(d.memory) && Named(d.file) && Consistent(d, name) && name in d.memory && name in d.file
    requires forall i :: 0 <= i <= |changes| ==> name in SavedAll(d, changes[..i]).memory
    ensures var d' := SavedAll(d, changes);
            && Named(d'.memory) && Named(d'.file) && name in d'.memory && SameProof(d.memory[name], d'.memory[name])
            && Consistent(d', name)
            && (name in d'.file ==>
                  && SameBut(d.file[name], d'.file[name])
                  && (d.memory[name].id != 0 ==> d'.file[name].id == d.file[name].id))
    decreases |changes|
  {
    hide Managed, Saved, Consistent, ValidProof;
    assert changes[..|changes|] == changes;
    if changes == [] {
      SameAgain(d, name);
    } else {
      var front := changes[..|changes| - 1];
      forall i | 0 <= i <= |front| ensures name in SavedAll(d, front[..i]).memory {
        assert front[..i] == changes[..i];
      }
      FileProofs(d, front, name);
      SavedOnce(d, SavedAll(d, front), changes[|changes| - 1], name);
    }
  }

  lemma SameAgain(d: Copies, name: string)
    requires Named(d.memory) && Named(d.file) && name in d.memory && name in d.file
    ensures SameProof(d.memory[name], d.memory[name]) && SameBut(d.file[name], d.file[name])
  {
  }

  lemma SavedOnce(d0: Copies, d: Copies, change: Change, name: string)
    requires name in d0.memory && name in d0.file && Consistent(d0, name) && Named(d.memory) && Named(d.file)
    requires Consistent(d, name)
    requires name in d.memory && SameProof(d0.memory[name], d.memory[name]) && name in Saved(d, change).memory
    requires name in d.file ==>
               SameBut(d0.file[name], d.file[name]) && (d0.memory[name].id != 0 ==> d.file[name].id == d0.file[name].id)
    ensures var d' := Saved(d, change);
            && Named(d'.memory) && Named(d'.file) && SameProof(d0.memory[name], d'.memory[name]) && Consistent(d', name)
            && (name in d'.file ==>
                  && SameBut(d0.file[name], d'.file[name])
                  && (d0.memory[name].id != 0 ==> d'.file[name].id == d0.file[name].id))
  {
    hide Managed;
  }

  /** It does happen: 5 is bound by a write that replaced the file and still
      failed, then 7 is bound. */
  lemma BindingReplaced(p: Proof)
    requires ValidProof(p) && p.id == 0
    ensures var d := Copies(map[p.name := p], map[p.name := p]);
            var d5 := Saved(d, Put(p.(id := 5), Unsynced));
            var d7 := Saved(d5, Put(p.(id := 7), Committed));
            && p.name in d5.memory && p.name in d5.file && p.name in d7.memory && p.name in d7.file
            && d5.memory[p.name].id == 0 && d5.file[p.name].id == 5 && d7.file[p.name].id == 7
  {
    hide Managed;
  }
}
