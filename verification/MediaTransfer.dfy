/**
 Which account, project and media ids a dispatched job is sent with: the choice
 of connection, the choice of project, and the copy of referenced media into
 the chosen account.
 */
module MediaTransfer {
  import opened Base
  import opened JobTable
  import opened MediaCache

  // ----- connection and project -------------------------------------------------------------

  /** `key` is the account key; it differs from the installation once an e-mail is known. */
  datatype Connection = Connection(id: nat, key: Account, installation: Account)

  /** The route fields of a job; `lockedFlag` is absent in rows written before it existed. */
  datatype Route = Route(account: Option<Account>, project: Option<Project>, lockedFlag: Option<bool>)

  datatype Inferred = Inferred(account: Account, project: Project)

  predicate Locked(r: Route) {
    if r.lockedFlag.Some? then r.lockedFlag.value else r.account.Some? || r.project.Some?
  }

  /** A route inferred from the referenced media fills in only what the job leaves open. */
  function TargetAccount(r: Route, inferred: Option<Inferred>): Option<Account> {
    if r.account.Some? || inferred.None? then r.account else Some(inferred.value.account)
  }

  function TargetProject(r: Route, inferred: Option<Inferred>): Option<Project> {
    if r.project.Some? || inferred.None? then r.project else Some(inferred.value.project)
  }

  function Owner(owners: map<Project, Account>, project: Option<Project>): Option<Account> {
    if project.Some? && project.value in owners then Some(owners[project.value]) else None
  }

  predicate Serves(c: Connection, want: Option<Account>) {
    want.None? || c.key == want.value || c.installation == want.value
  }

  predicate Suits(c: Connection, r: Route, inferred: Option<Inferred>, owners: map<Project, Account>) {
    Serves(c, TargetAccount(r, inferred)) && Serves(c, Owner(owners, TargetProject(r, inferred)))
  }

  function Where(ready: seq<Connection>, keep: Connection -> bool): (kept: seq<Connection>)
    ensures forall c :: c in kept <==> c in ready && keep(c)
    ensures kept == [] <==> forall c | c in ready :: !keep(c)
  {
    if ready == [] then []
    else
      var rest := Where(ready[..|ready| - 1], keep);
      if keep(ready[|ready| - 1]) then rest + [ready[|ready| - 1]] else rest
  }

  /** The connections _dispatch_job selects from; `fits` holds those that can reserve the job's cost and slot. */
  function Candidates(r: Route, inferred: Option<Inferred>, owners: map<Project, Account>,
                      ready: seq<Connection>, fits: set<nat>): seq<Connection> {
    var available := Where(ready, (c: Connection) => Suits(c, r, inferred, owners) && c.id in fits);
    if available == [] && !Locked(r) then Where(ready, (c: Connection) => c.id in fits) else available
  }

  /** The job's own project, unless it has none or the chosen account is known not to own it. */
  function ChosenProject(r: Route, owners: map<Project, Account>, c: Connection, managed: Project): Project {
    var owner := Owner(owners, r.project);
    if r.project.None? || (owner.Some? && owner.value != c.key) then managed else r.project.value
  }

  /** A flag decides; a row without one is locked exactly when it has an account or a project. */
  lemma LockedExactly(r: Route)
    ensures r.lockedFlag == Some(true) ==> Locked(r)
    ensures r.lockedFlag == Some(false) ==> !Locked(r)
    ensures r.lockedFlag.None? ==> (Locked(r) <==> r.account.Some? || r.project.Some?)
  {
  }

  /**
   A connection suits when its key or installation is the account asked for, by
   the job or else by its media, and the owner of the project asked for likewise.
   */
  lemma SuitsExactly(c: Connection, r: Route, inferred: Option<Inferred>, owners: map<Project, Account>)
    ensures Suits(c, r, inferred, owners) <==>
              && (r.account.Some? ==> r.account.value in {c.key, c.installation})
              && (r.account.None? && inferred.Some? ==> inferred.value.account in {c.key, c.installation})
              && (r.project.Some? && r.project.value in owners ==> owners[r.project.value] in {c.key, c.installation})
              && (r.project.None? && inferred.Some? && inferred.value.project in owners ==>
                    owners[inferred.value.project] in {c.key, c.installation})
  {
  }

  /** The job's own project is used if and only if it has one whose owner is unknown or is the chosen account. */
  lemma ChosenProjectExactly(r: Route, owners: map<Project, Account>, c: Connection, managed: Project)
    ensures ChosenProject(r, owners, c, managed) ==
            if r.project.Some? && (r.project.value !in owners || owners[r.project.value] == c.key)
            then r.project.value else managed
  {
  }

  /** A routing-locked job is only ever sent through a connection of its account and of its project's owner. */
  lemma LockedJobKeepsItsAccount(r: Route, inferred: Option<Inferred>, owners: map<Project, Account>,
                                 ready: seq<Connection>, fits: set<nat>, c: Connection)
    requires Locked(r) && c in Candidates(r, inferred, owners, ready, fits)
    ensures c in ready && c.id in fits
    ensures Serves(c, r.account) && Serves(c, Owner(owners, r.project))
  {
  }

  /** An unlocked job goes elsewhere exactly when no ready connection that fits suits it. */
  lemma FailoverExactly(r: Route, inferred: Option<Inferred>, owners: map<Project, Account>,
                        ready: seq<Connection>, fits: set<nat>, c: Connection)
    requires r.lockedFlag == Some(false) || (r.lockedFlag.None? && r.account.None? && r.project.None?)
    requires c in ready && c.id in fits && !Suits(c, r, inferred, owners)
    ensures c in Candidates(r, inferred, owners, ready, fits) <==>
              forall o | o in ready && o.id in fits :: !Suits(o, r, inferred, owners)
  {
    var available := Where(ready, (o: Connection) => Suits(o, r, inferred, owners) && o.id in fits);
    if o :| o in ready && o.id in fits && Suits(o, r, inferred, owners) {
      assert o in available;
    } else {
      assert forall o | o in ready :: !(Suits(o, r, inferred, owners) && o.id in fits);
    }
  }

  /** The project sent is never one that another account is known to own. */
  lemma ProjectIsOwned(r: Route, owners: map<Project, Account>, c: Connection, managed: Project)
    requires ChosenProject(r, owners, c, managed) != managed
    ensures r.project == Some(ChosenProject(r, owners, c, managed))
    ensures r.project.value in owners ==> owners[r.project.value] == c.key
  {
  }

  /**
   A locked job with an owned project keeps it if and only if the chosen
   connection's account key is the recorded owner; a connection that qualifies by
   its bare installation id alone moves the job to the managed project.
   */
  lemma LockedProjectKeptExactly(r: Route, inferred: Option<Inferred>, owners: map<Project, Account>,
                                 ready: seq<Connection>, fits: set<nat>, c: Connection, managed: Project)
    requires r.lockedFlag != Some(false) && c in Candidates(r, inferred, owners, ready, fits)
    requires r.project.Some? && r.project.value in owners && managed != r.project.value
    ensures ChosenProject(r, owners, c, managed) == r.project.value <==> c.key == owners[r.project.value]
    ensures ChosenProject(r, owners, c, managed) == managed <==> c.key != owners[r.project.value]
    ensures c.key != owners[r.project.value] ==> c.installation == owners[r.project.value]
  {
    LockedJobKeepsItsAccount(r, inferred, owners, ready, fits, c);
  }

  /** And that happens: the owner was recorded as installation 5 before the account's e-mail was known. */
  lemma LockedProjectCanMove()
    ensures var r := Route(None, Some(9), Some(true));
            var c := Connection(0, 51, 5);
            && c in Candidates(r, None, map[9 := 5], [c], {0})
            && ChosenProject(r, map[9 := 5], c, 1) == 1
  {
    var r := Route(None, Some(9), Some(true));
    var c := Connection(0, 51, 5);
    assert Suits(c, r, None, map[9 := 5]);
    assert c in [c];
  }

  // ----- copying referenced media ---------------------------------------------------------------

  datatype Known = Known(account: Account, project: Project, digest: Digest)

  datatype Failure = SourceUnavailable | SourceMissing | DownloadFailed | UploadFailed

  datatype Outcome<T> = Done(value: T) | Refused(failure: Failure)

  /** The route on record for an id is not the chosen account and project. */
  predicate Foreign(known: map<MediaId, Known>, id: MediaId, account: Account, project: Project) {
    id in known && !(known[id].account == account && known[id].project == project)
  }

  /** Some digest is stored under exactly this account and project with this id. */
  predicate Recorded(entries: map<Place, MediaId>, account: Account, project: Project, id: MediaId) {
    exists p | p in entries :: p.account == account && p.project == project && entries[p] == id
  }

  predicate Extends(before: map<Place, MediaId>, after: map<Place, MediaId>, account: Account, project: Project) {
    && (forall p | p in before :: p in after && after[p] == before[p])
    && forall p | p in after && p !in before :: p.account == account && p.project == project
  }

  /** Neither the owning account nor the local asset store can supply the bytes. */
  predicate Stranded(known: map<MediaId, Known>, id: MediaId, account: Account, project: Project,
                     online: set<Account>, bytes: set<Digest>) {
    Foreign(known, id, account, project) && known[id].account !in online && known[id].digest !in bytes
  }

  /** What the worker sends: start and end frame, the payload's references, and those it collected itself. */
  datatype References = References(
    start: Option<MediaId>,
    end: Option<MediaId>,
    listed: seq<MediaId>,
    collected: seq<MediaId>)
  {
    /** Every id the job refers to. */
    predicate Mentions(m: MediaId) {
      start == Some(m) || end == Some(m) || m in listed || m in collected
    }
  }

  function Mapped(moved: map<MediaId, MediaId>, ids: seq<MediaId>): seq<MediaId> {
    seq(|ids|, i requires 0 <= i < |ids| => if ids[i] in moved then moved[ids[i]] else ids[i])
  }

  function MappedOne(moved: map<MediaId, MediaId>, id: Option<MediaId>): Option<MediaId> {
    if id.Some? && id.value in moved then Some(moved[id.value]) else id
  }

  /** `b` is `a` with every foreign id replaced by a recorded one and every other id left alone. */
  predicate Moved(known: map<MediaId, Known>, entries: map<Place, MediaId>, account: Account, project: Project,
                  a: MediaId, b: MediaId) {
    if BelongsElsewhere(known, a, account, project) then Recorded(entries, account, project, b) else b == a
  }

  /** The id is on record under another account or another project. */
  predicate BelongsElsewhere(known: map<MediaId, Known>, id: MediaId, account: Account, project: Project) {
    id in known && (known[id].account != account || known[id].project != project)
  }

  /** It does, and neither its account is connected nor its bytes are stored. */
  predicate OutOfReach(known: map<MediaId, Known>, id: MediaId, account: Account, project: Project,
                       online: set<Account>, bytes: set<Digest>) {
    BelongsElsewhere(known, id, account, project) && known[id].account !in online && known[id].digest !in bytes
  }

  lemma RoutesExactly(known: map<MediaId, Known>, account: Account, project: Project, online: set<Account>, bytes: set<Digest>)
    ensures forall id :: Foreign(known, id, account, project) <==> BelongsElsewhere(known, id, account, project)
    ensures forall id :: Stranded(known, id, account, project, online, bytes) <==> OutOfReach(known, id, account, project, online, bytes)
  {
  }

  class Transfer {
    var entries: map<Place, MediaId>
    const account: Account
    const project: Project
    const online: set<Account>
    const bytes: set<Digest>

    constructor (entries: map<Place, MediaId>, account: Account, project: Project, online: set<Account>, bytes: set<Digest>)
      ensures this.entries == entries && this.account == account && this.project == project
      ensures this.online == online && this.bytes == bytes
    {
      this.entries, this.account, this.project, this.online, this.bytes := entries, account, project, online, bytes;
    }

    /** _copy_media_to_target: `download` is the digest of the bytes the owner returns, `upload` the id of the copy. */
    method Copy(media: Known, download: Option<Digest>, upload: Option<MediaId>) returns (r: Outcome<MediaId>)
      modifies this
      ensures Extends(old(entries), entries, account, project)
      ensures r.Done? ==> Recorded(entries, account, project, r.value)
      ensures r.Refused? ==> entries == old(entries)
      ensures Place(account, project, media.digest) in old(entries) ==>
                r == Done(old(entries)[Place(account, project, media.digest)]) && entries == old(entries)
      ensures entries != old(entries) ==> upload == Some(r.value)
      ensures entries != old(entries) ==> (Place(account, project, media.digest), r.value) in entries.Items
      ensures r != Refused(SourceUnavailable)
      ensures r == Refused(SourceMissing) <==>
                Place(account, project, media.digest) !in old(entries) && media.digest !in bytes && media.account !in online
      ensures r == Refused(DownloadFailed) <==>
                && Place(account, project, media.digest) !in old(entries)
                && media.digest !in bytes && media.account in online && download.None?
      ensures r == Refused(UploadFailed) <==>
                && upload.None? && Place(account, project, media.digest) !in old(entries)
                && (media.digest !in bytes ==>
                      media.account in online && download.Some? && Place(account, project, download.value) !in old(entries))
      ensures Place(account, project, media.digest) !in old(entries) && media.digest in bytes && upload.Some? ==>
                r == Done(upload.value) && entries == old(entries)[Place(account, project, media.digest) := upload.value]
      ensures Place(account, project, media.digest) !in old(entries) && media.digest !in bytes && media.account in online
              && download.Some? && Place(account, project, download.value) in old(entries) ==>
                r == Done(old(entries)[Place(account, project, download.value)]) && entries == old(entries)
      ensures Place(account, project, media.digest) !in old(entries) && media.digest !in bytes && media.account in online
              && download.Some? && Place(account, project, download.value) !in old(entries) && upload.Some? ==>
                && r == Done(upload.value)
                && entries == old(entries)[Place(account, project, download.value) := upload.value]
                                          [Place(account, project, media.digest) := upload.value]
    {
      var place := Place(account, project, media.digest);
      if place in entries {
        return Done(entries[place]);
      }
      var digest := media.digest;
      if media.digest !in bytes {
        if media.account !in online {
          return Refused(SourceMissing);
        }
        if download.None? {
          return Refused(DownloadFailed);
        }
        digest := download.value;
      }
      var copied := Place(account, project, digest);
      if copied in entries {
        return Done(entries[copied]);
      }
      if upload.None? {
        return Refused(UploadFailed);
      }
      entries := entries[copied := upload.value];
      if media.digest != digest {
        entries := entries[place := upload.value];
      }
      assert copied in entries && entries[copied] == upload.value;
      r := Done(upload.value);
    }

    lemma RecordedStays(before: map<Place, MediaId>, after: map<Place, MediaId>, id: MediaId)
      requires Recorded(before, account, project, id) && Extends(before, after, account, project)
      ensures Recorded(after, account, project, id)
    {
      var p :| p in before && p.account == account && p.project == project && before[p] == id;
      assert p in after && after[p] == id;
    }

    /**
     _rehydrate_media_ids: sources are checked for every id before anything is
     copied; then each foreign id is copied once and replaced wherever it occurs.
     */
    method Rehydrate(ids: seq<MediaId>, known: map<MediaId, Known>, downloads: map<MediaId, Digest>,
                     uploads: map<MediaId, MediaId>) returns (r: Outcome<seq<MediaId>>)
      modifies this
      ensures Extends(old(entries), entries, account, project)
      ensures r == Refused(SourceUnavailable) <==>
                exists i :: 0 <= i < |ids| && OutOfReach(known, ids[i], account, project, online, bytes)
      ensures r == Refused(SourceUnavailable) ==> entries == old(entries)
      ensures r != Refused(SourceMissing)
      ensures (forall i | 0 <= i < |ids| && BelongsElsewhere(known, ids[i], account, project) ::
                 !OutOfReach(known, ids[i], account, project, online, bytes) && ids[i] in downloads && ids[i] in uploads) ==> r.Done?
      ensures (forall i | 0 <= i < |ids| :: !BelongsElsewhere(known, ids[i], account, project)) ==> r == Done(ids) && entries == old(entries)
      ensures r.Done? ==>
                && |r.value| == |ids|
                && (forall i | 0 <= i < |ids| :: Moved(known, entries, account, project, ids[i], r.value[i]))
                && forall i, j | 0 <= i < |ids| && 0 <= j < |ids| && ids[i] == ids[j] :: r.value[i] == r.value[j]
    {
      RoutesExactly(known, account, project, online, bytes);
      hide BelongsElsewhere, OutOfReach;
      for i := 0 to |ids|
        invariant forall j | 0 <= j < i :: !Stranded(known, ids[j], account, project, online, bytes)
      {
        if Stranded(known, ids[i], account, project, online, bytes) {
          return Refused(SourceUnavailable);
        }
      }
      var transferred: map<MediaId, MediaId> := map[];
      var output: seq<MediaId> := [];
      hide Recorded, Extends;
      assert Extends(entries, entries, account, project) by { ExtendsRefl(); }
      for i := 0 to |ids|
        invariant |output| == i && Extends(old(entries), entries, account, project)
        invariant (forall j | 0 <= j < i :: !Foreign(known, ids[j], account, project)) ==> entries == old(entries)
        invariant forall m | m in transferred ::
          Foreign(known, m, account, project) && Recorded(entries, account, project, transferred[m])
        invariant forall j | 0 <= j < i ::
          if Foreign(known, ids[j], account, project)
          then ids[j] in transferred && output[j] == transferred[ids[j]]
          else output[j] == ids[j]
      {
        var id := ids[i];
        if !Foreign(known, id, account, project) {
          output := output + [id];
        } else if id in transferred {
          output := output + [transferred[id]];
        } else {
          assert !Stranded(known, id, account, project, online, bytes);
          label before:
          var copy := Copy(known[id], if id in downloads then Some(downloads[id]) else None,
                           if id in uploads then Some(uploads[id]) else None);
          ExtendsTrans(old(entries), old@before(entries), entries);
          if copy.Refused? {
            return Refused(copy.failure);
          }
          forall m | m in transferred ensures Recorded(entries, account, project, transferred[m]) {
            RecordedStays(old@before(entries), entries, transferred[m]);
          }
          transferred := transferred[id := copy.value];
          output := output + [copy.value];
        }
      }
      assert (forall i | 0 <= i < |ids| :: !Foreign(known, ids[i], account, project)) ==> output == ids;
      r := Done(output);
    }

    lemma ExtendsRefl()
      ensures forall e: map<Place, MediaId> :: Extends(e, e, account, project)
    {
    }

    lemma ExtendsTrans(a: map<Place, MediaId>, b: map<Place, MediaId>, c: map<Place, MediaId>)
      requires Extends(a, b, account, project) && Extends(b, c, account, project)
      ensures Extends(a, c, account, project)
    {
    }

    /**
     The worker's use of it: collect every referenced id once, move those with a
     foreign route, and rewrite all four places. On failure the job is failed and
     nothing is sent. After it, every id the job is sent with is either not known
     to belong elsewhere or recorded under the chosen account and project.
     */
    method PrepareReferences(refs: References, known: map<MediaId, Known>, downloads: map<MediaId, Digest>,
                             uploads: map<MediaId, MediaId>) returns (r: Outcome<References>)
      modifies this
      ensures Extends(old(entries), entries, account, project)
      ensures (forall m | refs.Mentions(m) && BelongsElsewhere(known, m, account, project) ::
                 !OutOfReach(known, m, account, project, online, bytes) && m in downloads && m in uploads) ==> r.Done?
      ensures (forall m | refs.Mentions(m) :: !BelongsElsewhere(known, m, account, project)) ==>
                r == Done(refs) && entries == old(entries)
      ensures r.Done? ==>
                && r.value.start.Some? == refs.start.Some? && r.value.end.Some? == refs.end.Some?
                && |r.value.listed| == |refs.listed| && |r.value.collected| == |refs.collected|
                && (refs.start.Some? ==> Moved(known, entries, account, project, refs.start.value, r.value.start.value))
                && (refs.end.Some? ==> Moved(known, entries, account, project, refs.end.value, r.value.end.value))
                && (forall i | 0 <= i < |refs.listed| ::
                      Moved(known, entries, account, project, refs.listed[i], r.value.listed[i]))
                && (forall i | 0 <= i < |refs.collected| ::
                      Moved(known, entries, account, project, refs.collected[i], r.value.collected[i]))
    {
      RoutesExactly(known, account, project, online, bytes);
      hide BelongsElsewhere, OutOfReach;
      hide Recorded, Extends, Foreign, Stranded;
      var foreign := ForeignIn(refs, known);
      if foreign == [] {
        ExtendsRefl();
        forall m | refs.Mentions(m) ensures !Foreign(known, m, account, project) {
          assert m !in foreign;
        }
        return Done(refs);
      }
      assert foreign[0] in foreign;
      var moved := Rehydrate(foreign, known, downloads, uploads);
      if moved.Refused? {
        return Refused(moved.failure);
      }
      var renamed := Zipped(foreign, moved.value);
      forall m | m in renamed ensures Moved(known, entries, account, project, m, renamed[m]) {
        var i :| 0 <= i < |foreign| && foreign[i] == m && moved.value[i] == renamed[m];
      }
      r := Done(References(MappedOne(renamed, refs.start), MappedOne(renamed, refs.end),
                           Mapped(renamed, refs.listed), Mapped(renamed, refs.collected)));
    }

    /** Every mentioned id with a foreign route. */
    method ForeignIn(refs: References, known: map<MediaId, Known>) returns (foreign: seq<MediaId>)
      ensures forall m :: m in foreign <==> refs.Mentions(m) && Foreign(known, m, account, project)
    {
      hide Foreign;
      var all: seq<MediaId> := [];
      if refs.start.Some? { all := all + [refs.start.value]; }
      if refs.end.Some? { all := all + [refs.end.value]; }
      all := AddMissing(all, refs.listed);
      all := AddMissing(all, refs.collected);
      assert forall m :: m in all <==> refs.Mentions(m);
      foreign := [];
      for i := 0 to |all|
        invariant forall m :: m in foreign <==> m in all[..i] && Foreign(known, m, account, project)
      {
        assert all[..i + 1] == all[..i] + [all[i]];
        if Foreign(known, all[i], account, project) { foreign := foreign + [all[i]]; }
      }
      assert all[..|all|] == all;
    }

    /** The ids of `more` that are not there yet, appended in order. */
    method AddMissing(ids: seq<MediaId>, more: seq<MediaId>) returns (all: seq<MediaId>)
      ensures forall m :: m in all <==> m in ids || m in more
    {
      all := ids;
      for i := 0 to |more|
        invariant forall m :: m in all <==> m in ids || m in more[..i]
      {
        if more[i] !in all { all := all + [more[i]]; }
        assert more[..i + 1] == more[..i] + [more[i]];
      }
      assert more[..|more|] == more;
    }

    /** dict(zip(a, b, strict=True)). */
    method Zipped(a: seq<MediaId>, b: seq<MediaId>) returns (m: map<MediaId, MediaId>)
      requires |a| == |b|
      ensures forall x :: x in m <==> x in a
      ensures forall x | x in m :: exists i :: 0 <= i < |a| && a[i] == x && b[i] == m[x]
    {
      m := map[];
      for i := 0 to |a|
        invariant forall x :: x in m <==> x in a[..i]
        invariant forall x | x in m :: exists j :: 0 <= j < i && a[j] == x && b[j] == m[x]
      {
        ghost var before := m;
        m := m[a[i] := b[i]];
        assert a[..i + 1] == a[..i] + [a[i]];
        forall x | x in m ensures exists j :: 0 <= j < i + 1 && a[j] == x && b[j] == m[x] {
          if x != a[i] {
            var j :| 0 <= j < i && a[j] == x && b[j] == before[x];
          }
        }
      }
      assert a[..|a|] == a;
    }
  }
}
