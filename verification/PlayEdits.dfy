/** One Google Play edit, guarded by a durable intent marker: every mutation is sent under a
    marker of its own, and whatever is left unconfirmed stops all later runs. */
module PlayEdits {
  import opened Wrappers
  import opened PlayTracks

  // ---- What reaches the server ----

  datatype Mutation = CreateEdit | Upload(code: int, digest: string) | PutTrack(id: string, desired: Fields) | Validate | Commit

  /** What a response must say before its mutation counts as done. */
  datatype Expectation = NewEdit | SameEdit(id: string) | UploadOf(code: int, digest: string) | TrackEcho(desired: Fields)

  ghost predicate Accepts(response: Fields, e: Expectation) {
    match e
    case NewEdit => Get(response, "id").Str? && IsEditId(response["id"].text)
    case SameEdit(id) => Get(response, "id") == Str(id)
    case UploadOf(code, digest) => Get(response, "versionCode") == Int(code) && Get(response, "sha256") == Str(digest)
    case TrackEcho(desired) => Echoes(response, desired)
  }

  /** What each mutation of an edit must be answered with: a new edit's id, the edit's own id, the
      very code and digest uploaded, or the track as it was written. */
  ghost predicate Confirms(response: Fields, m: Mutation, edit: string) {
    match m
    case CreateEdit => Get(response, "id").Str? && IsEditId(Get(response, "id").text)
    case Upload(code, digest) => Get(response, "versionCode") == Int(code) && Get(response, "sha256") == Str(digest)
    case PutTrack(_, desired) => Echoes(response, desired)
    case _ => Get(response, "id") == Str(edit)
  }

  /** The expectation a mutation is sent with. */
  function Expects(m: Mutation, edit: string): Expectation {
    match m
    case CreateEdit => NewEdit
    case Upload(code, digest) => UploadOf(code, digest)
    case PutTrack(_, desired) => TrackEcho(desired)
    case Validate => SameEdit(edit)
    case Commit => SameEdit(edit)
  }

  predicate IsEditId(text: string) {
    1 <= |text| <= 200 && forall i :: 0 <= i < |text| ==> IsWord(text[i]) || text[i] == '-'
  }

  predicate IsWord(c: char) { 'a' <= c <= 'z' || 'A' <= c <= 'Z' || '0' <= c <= '9' || c == '_' }

  /** `[A-Za-z0-9][A-Za-z0-9_.-]{0,99}` */
  predicate IsTrackName(text: string) {
    1 <= |text| <= 100 && IsWord(text[0]) && text[0] != '_'
    && forall i :: 0 <= i < |text| ==> IsWord(text[i]) || text[i] == '.' || text[i] == '-'
  }

  predicate IsWearTrack(text: string) { |text| >= 5 && text[..5] == "wear:" && IsTrackName(text[5..]) }

  const Lower: set<char> := {'a', 'b', 'c', 'd', 'e', 'f', 'g', 'h', 'i', 'j', 'k', 'l', 'm', 'n', 'o', 'p', 'q', 'r', 's', 't',
                             'u', 'v', 'w', 'x', 'y', 'z'}
  const Upper: set<char> := {'A', 'B', 'C', 'D', 'E', 'F', 'G', 'H', 'I', 'J', 'K', 'L', 'M', 'N', 'O', 'P', 'Q', 'R', 'S', 'T',
                             'U', 'V', 'W', 'X', 'Y', 'Z'}
  const Numerals: set<char> := {'0', '1', '2', '3', '4', '5', '6', '7', '8', '9'}

  predicate Alphanumeric(c: char) { c in Lower || c in Upper || c in Numerals }

  lemma WordCharacters(c: char)
    ensures IsWord(c) <==> Alphanumeric(c) || c == '_'
    ensures !Alphanumeric('_')
  {}

  /** The names a run accepts, character by character. */
  lemma NamesAre(text: string)
    ensures IsEditId(text) <==>
      1 <= |text| <= 200 && forall i :: 0 <= i < |text| ==> Alphanumeric(text[i]) || text[i] == '_' || text[i] == '-'
    ensures IsTrackName(text) <==>
      1 <= |text| <= 100 && Alphanumeric(text[0])
      && forall i :: 0 <= i < |text| ==> Alphanumeric(text[i]) || text[i] == '_' || text[i] == '.' || text[i] == '-'
  {
    hide IsWord, Alphanumeric;
    forall c { WordCharacters(c); }
  }

  // ---- The history of one preparation directory ----

  datatype Event =
    | Sent(mutation: Mutation, marked: bool)
    | Reading                     // a GET
    | Confirmed(response: Fields, expectation: Expectation)
    | Removed                     // an operator reconciled and deleted the marker

  /** Some mutation is still unconfirmed. */
  function Open(log: seq<Event>): bool {
    if log == [] then false
    else
      match log[|log| - 1]
      case Sent(_, _) => true
      case Reading => Open(log[..|log| - 1])
      case Confirmed(_, _) => false
      case Removed => false
  }

  /** Mutations are sent marked and one at a time, and confirmed at once by a matching response
      or never. */
  ghost predicate Guarded(log: seq<Event>) {
    forall i :: 0 <= i < |log| ==> Follows(log[..i], log[i])
  }

  function Mutations(log: seq<Event>): seq<Mutation> {
    if log == [] then []
    else
      var front, last := Mutations(log[..|log| - 1]), log[|log| - 1];
      if last.Sent? then front + [last.mutation] else front
  }

  lemma LogGrows(log: seq<Event>, e: Event)
    ensures Open(log + [e]) == (e.Sent? || (e.Reading? && Open(log)))
    ensures Mutations(log + [e]) == if e.Sent? then Mutations(log) + [e.mutation] else Mutations(log)
    ensures Guarded(log) && Follows(log, e) ==> Guarded(log + [e])
  {
    assert (log + [e])[..|log|] == log;
    hide Follows;
    if Guarded(log) && Follows(log, e) { GuardedGrows(log, e); }
  }

  /** What may come next. */
  ghost predicate Follows(log: seq<Event>, e: Event) {
    match e
    case Sent(_, marked) => marked && !Open(log)
    case Confirmed(response, expectation) => Accepts(response, expectation) && log != [] && log[|log| - 1].Sent?
    case Reading => true
    case Removed => true
  }

  lemma GuardedGrows(log: seq<Event>, e: Event)
    requires Guarded(log) && Follows(log, e)
    ensures Guarded(log + [e])
  {
    hide Accepts, Open;
    var more := log + [e];
    forall i | 0 <= i < |more| ensures Follows(more[..i], more[i]) {
      if i < |log| {
        assert Follows(log[..i], log[i]) && more[..i] == log[..i] && more[i] == log[i];
      } else {
        assert more[..i] == log;
      }
    }
  }

  /** Between any two mutations the first was confirmed, or an operator stepped in. */
  lemma {:induction false} NoTwoUnconfirmed(log: seq<Event>, i: nat, j: nat)
    requires Guarded(log) && i < j < |log| && log[i].Sent? && log[j].Sent?
    ensures exists k :: i < k < j && (log[k].Confirmed? || log[k].Removed?)
  {
    assert Follows(log[..j], log[j]);
    OpenUntilClosed(log, i, j);
  }

  lemma {:induction false} OpenUntilClosed(log: seq<Event>, i: nat, j: nat)
    requires i < j <= |log| && log[i].Sent? && !Open(log[..j])
    ensures exists k :: i < k < j && (log[k].Confirmed? || log[k].Removed?)
    decreases j
  {
    var prefix := log[..j];
    assert prefix[|prefix| - 1] == log[j - 1] && prefix[..|prefix| - 1] == log[..j - 1];
    if log[j - 1].Reading? { OpenUntilClosed(log, i, j - 1); }
  }

  /** A mutation that its own run did not confirm stays in the way until an operator removes the
      marker: nothing else reopens the directory. */
  lemma {:induction false} OnlyRemovalReopens(log: seq<Event>, i: nat, j: nat)
    requires Guarded(log) && i < j < |log| && log[i].Sent? && log[j].Sent? && !log[i + 1].Confirmed?
    ensures exists k :: i < k < j && log[k].Removed?
    decreases j
  {
    NoTwoUnconfirmed(log, i, j);
    var k :| i < k < j && (log[k].Confirmed? || log[k].Removed?);
    if log[k].Confirmed? {
      assert Follows(log[..k], log[k]) && log[..k][k - 1] == log[k - 1];
      OnlyRemovalReopens(log, i, k - 1);
    }
  }

  class Directory {
    var marker: bool
    ghost var log: seq<Event>

    ghost predicate Valid()
      reads this
    {
      Guarded(log) && (Open(log) ==> marker)
    }

    constructor ()
      ensures Valid() && !marker && log == []
    {
      marker, log := false, [];
    }

    /** An operator inspects the server and removes the marker by hand. */
    method Reconcile()
      requires Valid()
      modifies this
      ensures Valid() && !marker && !Open(log) && log == old(log) + [Removed]
      ensures Mutations(log) == Mutations(old(log))
    {
      marker := false;
      LogGrows(log, Removed);
      log := log + [Removed];
    }
  }

  // ---- Requests ----

  /** What becomes of one request, including the process dying at any point around it. */
  datatype Fate = Answered(status: int, body: Json) | Raised | DiesBefore | DiesMarked

  // ---- What a run sets out to do ----

  /** A retained bundle: its version code and the digest of its bytes. */
  datatype Bundle = Bundle(code: int, digest: string)

  predicate IsHash(text: string) {
    |text| == 64 && forall i :: 0 <= i < |text| ==> '0' <= text[i] <= '9' || 'a' <= text[i] <= 'f'
  }

  /** A named track, and the releases it keeps. */
  ghost predicate IsTrack(j: Json) {
    && j.Obj? && Get(j.fields, "track").Str? && ReleasesOf(j.fields).List?
    && |ReleasesOf(j.fields).items| <= 1000
    && forall i :: 0 <= i < |ReleasesOf(j.fields).items| ==> ReleaseCodes(ReleasesOf(j.fields).items[i]).Some?
  }

  /** A listing of tracks under distinct names. */
  ghost predicate Listing(items: seq<Json>) {
    && |items| <= 1000 && (forall i :: 0 <= i < |items| ==> IsTrack(items[i]))
    && forall i, j :: 0 <= i < j < |items| ==> TrackName(items[i]) != TrackName(items[j])
  }

  function TrackName(j: Json): Json { if j.Obj? then Get(j.fields, "track") else Null }

  predicate OwnName(items: seq<Json>, i: nat)
    requires i < |items|
  {
    forall k :: 0 <= k < i ==> TrackName(items[k]) != TrackName(items[i])
  }

  /** The tracks of a listing by name. */
  ghost predicate Names(tracks: map<string, Fields>, items: seq<Json>) {
    && (forall i :: 0 <= i < |items| && TrackName(items[i]).Str? ==>
          var name := TrackName(items[i]).text; name in tracks && tracks[name] == items[i].fields)
    && forall name :: name in tracks ==> exists i :: 0 <= i < |items| && TrackName(items[i]) == Str(name)
  }

  /** A stored bundle: its version code and the digest of its bytes. */
  predicate IsBundle(j: Json) {
    && j.Obj? && Get(j.fields, "versionCode").Int? && 1 <= Get(j.fields, "versionCode").n <= CodeMax
    && Get(j.fields, "sha256").Str? && IsHash(Get(j.fields, "sha256").text)
  }

  /** A listing of bundles under distinct version codes. */
  predicate BundleListing(items: seq<Json>) {
    && |items| <= 10000 && (forall i :: 0 <= i < |items| ==> IsBundle(items[i]))
    && forall i, j :: 0 <= i < j < |items| ==> Get(items[i].fields, "versionCode") != Get(items[j].fields, "versionCode")
  }

  /** The digests of a listing by version code. */
  ghost predicate Digests(listed: map<int, string>, items: seq<Json>) {
    && (forall i :: 0 <= i < |items| && IsBundle(items[i]) ==>
          var code := Get(items[i].fields, "versionCode").n;
          code in listed && Get(items[i].fields, "sha256") == Str(listed[code]))
    && forall code :: code in listed ==>
         exists i :: 0 <= i < |items| && IsBundle(items[i]) && Get(items[i].fields, "versionCode") == Int(code)
  }

  /** An absent bundle list is an empty one. */
  function BundlesOf(response: Fields): Json { if "bundles" in response then response["bundles"] else List([]) }

  predicate OwnVersion(items: seq<Json>, i: nat)
    requires i < |items| && items[i].Obj? && forall k :: 0 <= k < i ==> items[k].Obj?
  {
    forall k :: 0 <= k < i ==> Get(items[k].fields, "versionCode") != Get(items[i].fields, "versionCode")
  }

  lemma BundlesGrow(items: seq<Json>, i: nat)
    requires i < |items| <= 10000 && BundleListing(items[..i])
    ensures BundleListing(items) ==> IsBundle(items[i]) && OwnVersion(items, i)
    ensures IsBundle(items[i]) && OwnVersion(items, i) ==> BundleListing(items[..i + 1])
  {
    hide IsBundle;
  }

  /** A code not listed yet is its item's own; listing it keeps the digests. */
  lemma DigestsGrow(listed: map<int, string>, items: seq<Json>, i: nat)
    requires i < |items| && BundleListing(items[..i]) && Digests(listed, items[..i])
    ensures IsBundle(items[i]) ==> var code := Get(items[i].fields, "versionCode").n;
      && (code !in listed <==> OwnVersion(items, i))
      && (code !in listed ==> Digests(listed[code := Get(items[i].fields, "sha256").text], items[..i + 1]))
  {
    hide IsHash;
    var front := items[..i];
    assert forall k :: 0 <= k < i ==> front[k] == items[k] && IsBundle(front[k]);
    if IsBundle(items[i]) {
      var code := Get(items[i].fields, "versionCode").n;
      var more := items[..i + 1];
      assert forall k :: 0 <= k < i ==> more[k] == front[k];
      assert more[i] == items[i];
      if code in listed {
        var k :| 0 <= k < i && IsBundle(front[k]) && Get(front[k].fields, "versionCode") == Int(code);
        assert !OwnVersion(items, i);
      }
    }
  }

  /** Some track has ever released this version code. */
  ghost predicate Released(items: seq<Json>, code: int) {
    exists i :: 0 <= i < |items| && ReleasedBy(items[i], code)
  }

  ghost predicate ReleasedBy(track: Json, code: int) {
    && track.Obj? && ReleasesOf(track.fields).List?
    && exists k :: 0 <= k < |ReleasesOf(track.fields).items| && code in CodesOf(ReleasesOf(track.fields).items[k])
  }

  lemma ListingGrows(items: seq<Json>, i: nat)
    requires i < |items| <= 1000 && Listing(items[..i])
    ensures Listing(items) ==> IsTrack(items[i]) && OwnName(items, i)
    ensures IsTrack(items[i]) && OwnName(items, i) ==> Listing(items[..i + 1])
  {
    hide IsTrack, TrackName;
  }

  lemma NamesGrow(tracks: map<string, Fields>, items: seq<Json>, i: nat)
    requires i < |items| && Names(tracks, items[..i])
    ensures TrackName(items[i]).Str? ==> var name := TrackName(items[i]).text;
      && (name !in tracks <==> OwnName(items, i))
      && (name !in tracks ==> Names(tracks[name := items[i].fields], items[..i + 1]))
  {
    hide ReleaseCodes;
    var front, more := items[..i], items[..i + 1];
    assert forall k :: 0 <= k < i ==> front[k] == items[k] && more[k] == front[k];
    assert more[i] == items[i];
    if TrackName(items[i]).Str? && TrackName(items[i]).text in tracks {
      var k :| 0 <= k < i && TrackName(front[k]) == TrackName(items[i]);
      assert !OwnName(items, i);
    }
  }

  lemma TrackIs(j: Json)
    ensures IsTrack(j) ==> TrackName(j).Str? && ReleasesOf(j.fields).List? && |ReleasesOf(j.fields).items| <= 1000
    ensures TrackName(j).Str? && ReleasesOf(j.fields).List? && |ReleasesOf(j.fields).items| <= 1000 ==>
      (IsTrack(j) <==>
         forall i :: 0 <= i < |ReleasesOf(j.fields).items| ==> ReleaseCodes(ReleasesOf(j.fields).items[i]).Some?)
      && forall code :: ReleasedBy(j, code) <==>
           exists i :: 0 <= i < |ReleasesOf(j.fields).items| && code in CodesOf(ReleasesOf(j.fields).items[i])
  {
    hide ReleaseCodes, CodesOf;
  }

  lemma ReleasedGrows(items: seq<Json>, i: nat)
    requires i < |items|
    ensures forall code :: Released(items[..i + 1], code) <==> Released(items[..i], code) || ReleasedBy(items[i], code)
  {
    hide ReleasedBy;
    forall code ensures Released(items[..i + 1], code) <==> Released(items[..i], code) || ReleasedBy(items[i], code) {
      if Released(items[..i], code) {
        var k :| 0 <= k < i && ReleasedBy(items[..i][k], code);
        assert ReleasedBy(items[..i + 1][k], code);
      }
      if ReleasedBy(items[i], code) { assert ReleasedBy(items[..i + 1][i], code); }
      if Released(items[..i + 1], code) {
        var k :| 0 <= k <= i && ReleasedBy(items[..i + 1][k], code);
        if k < i { assert ReleasedBy(items[..i][k], code); }
      }
    }
  }

  function Uploads(bundles: seq<Bundle>, listed: map<int, string>): seq<Mutation> {
    if bundles == [] then []
    else
      var last := bundles[|bundles| - 1];
      Uploads(bundles[..|bundles| - 1], listed) + if last.code in listed then [] else [Upload(last.code, last.digest)]
  }

  /** One track edit a run intends. */
  datatype Edit = Edit(id: string, before: Fields, after: Fields)

  function Puts(edits: seq<Edit>): seq<Mutation> {
    if edits == [] then []
    else
      var last := edits[|edits| - 1];
      Puts(edits[..|edits| - 1]) + if last.after == last.before then [] else [PutTrack(last.id, last.after)]
  }

  function Plan(bundles: seq<Bundle>, listed: map<int, string>, edits: seq<Edit>): seq<Mutation> {
    [CreateEdit] + Uploads(bundles, listed) + Puts(edits) + [Validate, Commit]
  }

  /** One bundle and its track: no other bytes stored under its code, no release of that code
      without its bytes stored, and a track that takes it. */
  predicate Admits(b: Bundle, track: Fields, listed: map<int, string>, consumed: set<int>, status: string)
    requires 1 <= b.code <= CodeMax
  {
    && (b.code in listed ==> listed[b.code] == b.digest) && (b.code in consumed ==> b.code in listed)
    && TrackState(track, b.code, status).Success?
  }

  /** The plan for the two bundles, step by step: what is already stored is not uploaded, what is
      already as asked is not written. */
  lemma PlanIs(bundles: seq<Bundle>, listed: map<int, string>, edits: seq<Edit>)
    requires |bundles| == 2 && |edits| == 2
    ensures Plan(bundles, listed, edits) ==
      [CreateEdit]
      + (if bundles[0].code in listed then [] else [Upload(bundles[0].code, bundles[0].digest)])
      + (if bundles[1].code in listed then [] else [Upload(bundles[1].code, bundles[1].digest)])
      + (if edits[0].after == edits[0].before then [] else [PutTrack(edits[0].id, edits[0].after)])
      + (if edits[1].after == edits[1].before then [] else [PutTrack(edits[1].id, edits[1].after)])
      + [Validate, Commit]
  {
    hide Uploads, Puts;
    UploadsOfTwo(bundles, listed);
    PutsOfTwo(edits);
    var u := if bundles[0].code in listed then [] else [Upload(bundles[0].code, bundles[0].digest)];
    var v := if bundles[1].code in listed then [] else [Upload(bundles[1].code, bundles[1].digest)];
    var x := if edits[0].after == edits[0].before then [] else [PutTrack(edits[0].id, edits[0].after)];
    var y := if edits[1].after == edits[1].before then [] else [PutTrack(edits[1].id, edits[1].after)];
    Regroups([CreateEdit], u, v, x, y, [Validate, Commit]);
  }

  lemma Regroups(a: seq<Mutation>, u: seq<Mutation>, v: seq<Mutation>, x: seq<Mutation>, y: seq<Mutation>,
      z: seq<Mutation>)
    ensures a + (u + v) + (x + y) + z == a + u + v + x + y + z
  {
    assert a + (u + v) == a + u + v;
    assert a + u + v + (x + y) == a + u + v + x + y;
  }

  lemma UploadsOfTwo(bundles: seq<Bundle>, listed: map<int, string>)
    requires |bundles| == 2
    ensures Uploads(bundles, listed) ==
      (if bundles[0].code in listed then [] else [Upload(bundles[0].code, bundles[0].digest)])
      + if bundles[1].code in listed then [] else [Upload(bundles[1].code, bundles[1].digest)]
  {
    var front := bundles[..1];
    assert front[..0] == [] && front[0] == bundles[0];
    assert Uploads(front, listed)
        == Uploads(front[..0], listed) + if front[0].code in listed then [] else [Upload(front[0].code, front[0].digest)];
  }

  lemma PutsOfTwo(edits: seq<Edit>)
    requires |edits| == 2
    ensures Puts(edits) ==
      (if edits[0].after == edits[0].before then [] else [PutTrack(edits[0].id, edits[0].after)])
      + if edits[1].after == edits[1].before then [] else [PutTrack(edits[1].id, edits[1].after)]
  {
    var front := edits[..1];
    assert front[..0] == [] && front[0] == edits[0];
    assert Puts(front)
        == Puts(front[..0]) + if front[0].after == front[0].before then [] else [PutTrack(front[0].id, front[0].after)];
  }

  class Play {
    const directory: Directory
    const fates: nat -> Fate
    var calls: nat
    var attempted: bool

    constructor (directory: Directory, fates: nat -> Fate)
      ensures this.directory == directory
    {
      this.directory := directory;
      this.fates := fates;
      calls, attempted := 0, false;
    }

    method NextFate() returns (f: Fate)
      modifies this`calls
      ensures f == fates(old(calls)) && calls == old(calls) + 1
    {
      f := fates(calls);
      calls := calls + 1;
    }

    /** Only a 200 whose body is an object is a response. */
    static function ResponseOf(f: Fate): Option<Fields> {
      if f.Answered? && f.status == 200 && f.body.Obj? then Some(f.body.fields) else None
    }

    /** A mutation sent as the `k`th request is answered as it must be, and its marker removed. */
    ghost predicate Good(k: nat, m: Mutation, edit: string) {
      var f := fates(k);
      f.Answered? && f.status == 200 && f.body.Obj? && Confirms(f.body.fields, m, edit) && fates(k + 1).Answered?
    }

    ghost predicate AllGood(k: nat, ms: seq<Mutation>, edit: string) {
      forall j :: 0 <= j < |ms| ==> Good(k + 2 * j, ms[j], edit)
    }

    method Fetch() returns (r: Option<Fields>)
      requires directory.Valid()
      modifies this`calls, directory`log
      ensures directory.Valid() && Mutations(directory.log) == Mutations(old(directory.log))
      ensures directory.log == old(directory.log) || directory.log == old(directory.log) + [Reading]
      ensures r == ResponseOf(fates(old(calls))) && calls == old(calls) + 1
    {
      var fate := NextFate();
      if fate.DiesBefore? { return None; }
      LogGrows(directory.log, Reading);
      directory.log := directory.log + [Reading];
      r := ResponseOf(fate);
    }

    /** The marker is created exclusively and made durable before anything is sent. */
    method Mutate(m: Mutation) returns (r: Option<Fields>)
      requires directory.Valid()
      modifies this`calls, this`attempted, directory
      ensures directory.Valid()
      ensures old(directory.marker) ==> r.None? && directory.log == old(directory.log) && directory.marker
      ensures r.Some? ==> directory.marker && directory.log == old(directory.log) + [Sent(m, true)]
      ensures directory.log == old(directory.log) || (directory.marker && directory.log == old(directory.log) + [Sent(m, true)])
      ensures calls == old(calls) + 1 && r == if old(directory.marker) then None else ResponseOf(fates(old(calls)))
    {
      var fate := NextFate();
      if fate.DiesBefore? || directory.marker { return None; }
      directory.marker := true;
      attempted := true;
      if fate.DiesMarked? { return None; }
      LogGrows(directory.log, Sent(m, directory.marker));
      directory.log := directory.log + [Sent(m, directory.marker)];
      r := ResponseOf(fate);
    }

    /** Removes the marker of a mutation whose response was accepted. */
    method Confirm(response: Fields, ghost expectation: Expectation) returns (ok: bool)
      requires directory.Valid() && directory.marker && Accepts(response, expectation)
      requires directory.log != [] && directory.log[|directory.log| - 1].Sent?
      modifies this`calls, directory
      ensures directory.Valid() && Mutations(directory.log) == Mutations(old(directory.log))
      ensures ok ==> !directory.marker && directory.log == old(directory.log) + [Confirmed(response, expectation)]
      ensures directory.marker ==> directory.log == old(directory.log)
      ensures calls == old(calls) + 1 && ok == fates(old(calls)).Answered?
    {
      var fate := NextFate();
      if fate.DiesBefore? { return false; }
      directory.marker := false;
      LogGrows(directory.log, Confirmed(response, expectation));
      directory.log := directory.log + [Confirmed(response, expectation)];
      ok := fate.Answered?;
    }

    method Expected(response: Fields, e: Expectation) returns (ok: bool)
      requires e.TrackEcho? ==> "releases" in e.desired && e.desired["releases"].List?
      ensures ok == Accepts(response, e)
    {
      match e
      case NewEdit => ok := Get(response, "id").Str? && IsEditId(response["id"].text);
      case SameEdit(id) => ok := Get(response, "id") == Str(id);
      case UploadOf(code, digest) => ok := Get(response, "versionCode") == Int(code) && Get(response, "sha256") == Str(digest);
      case TrackEcho(desired) => ok := VerifyTrackResponse(response, desired);
    }

    /** Send, check, confirm. Anything but full success ends the run. */
    method Perform(m: Mutation, e: Expectation) returns (r: Option<Fields>)
      requires directory.Valid()
      requires e.TrackEcho? ==> "releases" in e.desired && e.desired["releases"].List?
      modifies this`calls, this`attempted, directory
      ensures directory.Valid()
      ensures old(directory.marker) ==> r.None? && directory.log == old(directory.log) && directory.marker
      ensures r.Some? ==> !directory.marker && Accepts(r.value, e) && Mutations(directory.log) == Mutations(old(directory.log)) + [m]
      ensures Mutations(directory.log) == Mutations(old(directory.log))
           || Mutations(directory.log) == Mutations(old(directory.log)) + [m]
      ensures r.Some? ==> calls == old(calls) + 2 && r == ResponseOf(fates(old(calls)))
      ensures r.Some? <==>
        && !old(directory.marker) && ResponseOf(fates(old(calls))).Some? && Accepts(ResponseOf(fates(old(calls))).value, e)
        && fates(old(calls) + 1).Answered?
    {
      hide Accepts;
      LogGrows(directory.log, Sent(m, true));
      r := Mutate(m);
      if r.None? { return; }
      var ok := Expected(r.value, e);
      if !ok { return None; }
      var confirmed := Confirm(r.value, e);
      if !confirmed { return None; }
    }

    // ---- apply ----

    method ReadTracks(response: Fields) returns (r: Option<map<string, Fields>>, consumed: set<int>)
      ensures r.Some? <==> Get(response, "tracks").List? && Listing(response["tracks"].items)
      ensures r.Some? ==> Names(r.value, response["tracks"].items)
      ensures r.Some? ==> forall code :: code in consumed <==> Released(response["tracks"].items, code)
    {
      var listed := Get(response, "tracks");
      consumed := {};
      if !listed.List? || |listed.items| > 1000 { return None, consumed; }
      var items := listed.items;
      var tracks: map<string, Fields> := map[];
      assert Names(tracks, items[..0]);
      hide IsTrack, Released, ReleasedBy, ReleaseCodes, CodesOf, Names, Listing, OwnName;
      for i := 0 to |items|
        invariant Listing(items[..i]) && Names(tracks, items[..i])
        invariant forall code :: code in consumed <==> Released(items[..i], code)
      {
        ListingGrows(items, i);
        NamesGrow(tracks, items, i);
        if !items[i].Obj? { return None, consumed; }
        var track := items[i].fields;
        var releases := ReleasesOf(track);
        TrackIs(items[i]);
        if !Get(track, "track").Str? || track["track"].text in tracks { return None, consumed; }
        if !releases.List? || |releases.items| > 1000 { return None, consumed; }
        var codes := ReadCodes(releases.items);
        if codes.None? { return None, consumed; }
        ReleasedGrows(items, i);
        tracks := tracks[track["track"].text := track];
        consumed := consumed + codes.value;
      }
      assert items[..|items|] == items;
      r := Some(tracks);
    }

    method ReadCodes(releases: seq<Json>) returns (codes: Option<set<int>>)
      ensures codes.Some? <==> forall i :: 0 <= i < |releases| ==> ReleaseCodes(releases[i]).Some?
      ensures codes.Some? ==> forall code ::
        code in codes.value <==> exists i :: 0 <= i < |releases| && code in CodesOf(releases[i])
    {
      var found: set<int> := {};
      hide ReleaseCodes;
      for i := 0 to |releases|
        invariant forall k :: 0 <= k < i ==> ReleaseCodes(releases[k]).Some?
        invariant forall code :: code in found <==> exists k :: 0 <= k < i && code in CodesOf(releases[k])
      {
        var one := ReleaseCodes(releases[i]);
        if one.None? { return None; }
        found := found + one.value;
      }
      codes := Some(found);
    }

    method ReadBundles(response: Fields) returns (r: Option<map<int, string>>)
      ensures r.Some? <==> BundlesOf(response).List? && BundleListing(BundlesOf(response).items)
      ensures r.Some? ==> Digests(r.value, BundlesOf(response).items)
    {
      var listed := if "bundles" in response then response["bundles"] else List([]);
      if !listed.List? || |listed.items| > 10000 { return None; }
      var bundles: map<int, string> := map[];
      assert Digests(bundles, listed.items[..0]);
      hide IsHash, Digests, OwnVersion;
      for i := 0 to |listed.items|
        invariant BundleListing(listed.items[..i]) && Digests(bundles, listed.items[..i])
      {
        BundlesGrow(listed.items, i);
        DigestsGrow(bundles, listed.items, i);
        if !listed.items[i].Obj? { return None; }
        var fields := listed.items[i].fields;
        var code, digest := Get(fields, "versionCode"), Get(fields, "sha256");
        if !code.Int? || code.n <= 0 || code.n > CodeMax || !digest.Str? || !IsHash(digest.text) || code.n in bundles { return None; }
        bundles := bundles[code.n := digest.text];
      }
      assert listed.items[..|listed.items|] == listed.items;
      r := Some(bundles);
    }

    /** Decides every track edit before anything is changed on the server. */
    method Decide(bundles: seq<Bundle>, ids: seq<string>, tracks: map<string, Fields>, listed: map<int, string>,
        consumed: set<int>, status: string) returns (edits: Option<seq<Edit>>)
      requires |bundles| == |ids| && forall b :: b in bundles ==> 1 <= b.code <= CodeMax
      requires forall id :: id in ids ==> id in tracks
      ensures edits.Some? <==> forall i :: 0 <= i < |ids| ==> Admits(bundles[i], tracks[ids[i]], listed, consumed, status)
      ensures edits.Some? <==> forall i :: 0 <= i < |ids| ==>
        && (bundles[i].code in listed ==> listed[bundles[i].code] == bundles[i].digest)
        && (bundles[i].code in consumed ==> bundles[i].code in listed)
        && TrackState(tracks[ids[i]], bundles[i].code, status).Success?
      ensures edits.Some? ==> |edits.value| == |ids| && forall i :: 0 <= i < |ids| ==>
        edits.value[i].id == ids[i] && edits.value[i].before == tracks[ids[i]]
        && TrackState(tracks[ids[i]], bundles[i].code, status) == Success(edits.value[i].after)
    {
      var decided: seq<Edit> := [];
      hide TrackState;
      for i := 0 to |bundles|
        invariant forall k :: 0 <= k < i ==> Admits(bundles[k], tracks[ids[k]], listed, consumed, status)
        invariant |decided| == i && forall k :: 0 <= k < i ==>
          decided[k].id == ids[k] && decided[k].before == tracks[ids[k]]
          && TrackState(tracks[ids[k]], bundles[k].code, status) == Success(decided[k].after)
      {
        assert ids[i] in ids && bundles[i] in bundles;
        var b := bundles[i];
        if b.code in listed && listed[b.code] != b.digest { return None; }
        if b.code !in listed && b.code in consumed { return None; }
        var after := UpdateTrack(tracks[ids[i]], b.code, status);
        if after.Failure? { return None; }
        decided := decided + [Edit(ids[i], tracks[ids[i]], after.value)];
      }
      edits := Some(decided);
    }

    // What a run has sent so far, against what it plans to send.
    ghost predicate Upto(before: seq<Mutation>, plan: seq<Mutation>)
      reads directory
    {
      exists k :: 0 <= k <= |plan| && Mutations(directory.log) == before + plan[..k]
    }

    lemma UptoIs(before: seq<Mutation>, plan: seq<Mutation>, k: nat)
      requires k <= |plan| && Mutations(directory.log) == before + plan[..k]
      ensures Upto(before, plan)
    {}

    lemma GoodPrefix(k: nat, done: seq<Mutation>, m: Mutation, all: seq<Mutation>, edit: string)
      requires done + [m] <= all && !Good(k + 2 * |done|, m, edit)
      ensures !AllGood(k, all, edit)
    {
      assert all[|done|] == (done + [m])[|done|];
    }

    lemma GoodGrows(k: nat, done: seq<Mutation>, m: Mutation, edit: string)
      requires AllGood(k, done, edit) && Good(k + 2 * |done|, m, edit)
      ensures AllGood(k, done + [m], edit)
    {}

    /** Succeeds exactly when every upload does. */
    method UploadAll(bundles: seq<Bundle>, listed: map<int, string>, ghost edit: string, ghost start: seq<Mutation>)
      returns (ok: bool)
      requires directory.Valid() && Mutations(directory.log) == start && !directory.marker
      modifies this`calls, this`attempted, directory
      ensures directory.Valid()
      ensures ok ==> Mutations(directory.log) == start + Uploads(bundles, listed) && !directory.marker
      ensures ok ==> calls == old(calls) + 2 * |Uploads(bundles, listed)|
      ensures ok <==> AllGood(old(calls), Uploads(bundles, listed), edit)
      ensures Upto(start, Uploads(bundles, listed))
    {
      hide Mutations, Good, Accepts, Expects, Upto;
      ghost var k := calls;
      assert AllGood(k, [], edit);
      hide AllGood;
      assert start + Uploads(bundles[..0], listed) == start;
      for i := 0 to |bundles|
        invariant directory.Valid() && Mutations(directory.log) == start + Uploads(bundles[..i], listed) && !directory.marker
        invariant calls == k + 2 * |Uploads(bundles[..i], listed)| && AllGood(k, Uploads(bundles[..i], listed), edit)
      {
        assert bundles[..i + 1][..i] == bundles[..i];
        UploadsPrefix(bundles, listed, i);
        UploadsPrefix(bundles, listed, i + 1);
        if bundles[i].code !in listed {
          ghost var m := Upload(bundles[i].code, bundles[i].digest);
          ghost var sent := Uploads(bundles[..i], listed);
          GoodIs(calls, m, edit);
          var done := Perform(Upload(bundles[i].code, bundles[i].digest), UploadOf(bundles[i].code, bundles[i].digest));
          if done.None? {
            StoppedAt(start, Uploads(bundles, listed), sent, m);
            GoodPrefix(k, sent, m, Uploads(bundles, listed), edit);
            return false;
          }
          GoodGrows(k, sent, m, edit);
          assert start + sent + [m] == start + Uploads(bundles[..i + 1], listed);
        } else {
          assert Uploads(bundles[..i + 1], listed) == Uploads(bundles[..i], listed);
        }
      }
      assert bundles[..|bundles|] == bundles;
      UptoIs(start, Uploads(bundles, listed), |Uploads(bundles, listed)|);
      ok := true;
    }

    lemma GoodIs(k: nat, m: Mutation, edit: string)
      ensures var r := ResponseOf(fates(k));
        Good(k, m, edit) <==> r.Some? && Accepts(r.value, Expects(m, edit)) && fates(k + 1).Answered?
      ensures m.CreateEdit? ==> Expects(m, edit) == NewEdit
      ensures m.Upload? ==> Expects(m, edit) == UploadOf(m.code, m.digest)
      ensures m.PutTrack? ==> Expects(m, edit) == TrackEcho(m.desired)
      ensures m.Validate? || m.Commit? ==> Expects(m, edit) == SameEdit(edit)
    {
      hide Echoes, IsEditId;
    }

    /** A run that stopped inside one mutation has sent it or not. */
    lemma StoppedAt(start: seq<Mutation>, plan: seq<Mutation>, done: seq<Mutation>, m: Mutation)
      requires done + [m] <= plan
      requires Mutations(directory.log) == start + done || Mutations(directory.log) == start + done + [m]
      ensures Upto(start, plan)
    {
      hide Mutations;
      assert plan[..|done|] == done && plan[..|done| + 1] == done + [m];
      if Mutations(directory.log) == start + done {
        UptoIs(start, plan, |done|);
      } else {
        assert start + done + [m] == start + plan[..|done| + 1];
        UptoIs(start, plan, |done| + 1);
      }
    }

    /** Succeeds exactly when every track update does. */
    method PutAll(edit: string, edits: seq<Edit>, ghost start: seq<Mutation>) returns (ok: bool)
      requires directory.Valid() && Mutations(directory.log) == start && !directory.marker
      requires forall e :: e in edits ==> e.after != e.before ==> "releases" in e.after && e.after["releases"].List?
      modifies this`calls, this`attempted, directory
      ensures directory.Valid()
      ensures ok ==> Mutations(directory.log) == start + Puts(edits) && !directory.marker
      ensures ok ==> calls == old(calls) + 2 * |Puts(edits)|
      ensures ok <==> AllGood(old(calls), Puts(edits), edit)
      ensures Upto(start, Puts(edits))
    {
      hide Mutations, Good, Accepts, Expects, Upto;
      ghost var k := calls;
      assert AllGood(k, [], edit);
      hide AllGood;
      assert start + Puts(edits[..0]) == start;
      for i := 0 to |edits|
        invariant directory.Valid() && Mutations(directory.log) == start + Puts(edits[..i]) && !directory.marker
        invariant calls == k + 2 * |Puts(edits[..i])| && AllGood(k, Puts(edits[..i]), edit)
      {
        assert edits[..i + 1][..i] == edits[..i] && edits[i] in edits;
        PutsPrefix(edits, i);
        PutsPrefix(edits, i + 1);
        if edits[i].after != edits[i].before {
          ghost var m := PutTrack(edits[i].id, edits[i].after);
          ghost var sent := Puts(edits[..i]);
          GoodIs(calls, m, edit);
          var done := Perform(PutTrack(edits[i].id, edits[i].after), TrackEcho(edits[i].after));
          if done.None? {
            StoppedAt(start, Puts(edits), sent, m);
            GoodPrefix(k, sent, m, Puts(edits), edit);
            return false;
          }
          GoodGrows(k, sent, m, edit);
          assert start + sent + [m] == start + Puts(edits[..i + 1]);
        } else {
          assert Puts(edits[..i + 1]) == Puts(edits[..i]);
        }
      }
      assert edits[..|edits|] == edits;
      UptoIs(start, Puts(edits), |Puts(edits)|);
      ok := true;
    }

    ghost predicate TracksAt(k: nat) {
      && ResponseOf(fates(k)).Some? && Get(ResponseOf(fates(k)).value, "tracks").List?
      && Listing(Get(ResponseOf(fates(k)).value, "tracks").items)
    }

    ghost predicate BundlesAt(k: nat) {
      && ResponseOf(fates(k)).Some? && BundlesOf(ResponseOf(fates(k)).value).List?
      && BundleListing(BundlesOf(ResponseOf(fates(k)).value).items)
    }

    /** What the server holds, as read by requests `k` and `k + 1`. */
    ghost predicate Holds(k: nat, tracks: map<string, Fields>, consumed: set<int>, listed: map<int, string>)
      requires TracksAt(k) && BundlesAt(k + 1)
    {
      var items := Get(ResponseOf(fates(k)).value, "tracks").items;
      && Names(tracks, items) && (forall code :: code in consumed <==> Released(items, code))
      && Digests(listed, BundlesOf(ResponseOf(fates(k + 1)).value).items)
    }

    ghost predicate Surveyed(k: nat, tracks: map<string, Fields>, consumed: set<int>, listed: map<int, string>) {
      TracksAt(k) && BundlesAt(k + 1) ==> Holds(k, tracks, consumed, listed)
    }

    static function AfterFirst(plan: seq<Mutation>): seq<Mutation> { if plan == [] then [] else plan[1..] }

    predicate Decides(bundles: seq<Bundle>, phoneTrack: string, wearTrack: string, status: string,
        tracks: map<string, Fields>, consumed: set<int>, listed: map<int, string>)
      requires |bundles| == 2 && forall b :: b in bundles ==> 1 <= b.code <= CodeMax
    {
      && phoneTrack in tracks && wearTrack in tracks
      && Admits(bundles[0], tracks[phoneTrack], listed, consumed, status)
      && Admits(bundles[1], tracks[wearTrack], listed, consumed, status)
    }

    /** Reads the edit's tracks and bundles and decides both track edits. */
    method Survey(bundles: seq<Bundle>, phoneTrack: string, wearTrack: string, status: string)
      returns (edits: Option<seq<Edit>>, listed: map<int, string>, ghost tracks: map<string, Fields>, ghost consumed: set<int>, ghost stored: map<int, string>)
      requires directory.Valid() && |bundles| == 2 && forall b :: b in bundles ==> 1 <= b.code <= CodeMax
      modifies this`calls, directory`log
      ensures directory.Valid() && Mutations(directory.log) == Mutations(old(directory.log))
      ensures edits.Some? ==> |edits.value| == 2 && edits.value[0].id == phoneTrack && edits.value[1].id == wearTrack
      ensures edits.Some? ==>
        forall i :: 0 <= i < 2 ==> TrackState(edits.value[i].before, bundles[i].code, status) == Success(edits.value[i].after)
      ensures Surveyed(old(calls), tracks, consumed, stored)
      ensures edits.Some? <==>
        TracksAt(old(calls)) && BundlesAt(old(calls) + 1) && Decides(bundles, phoneTrack, wearTrack, status, tracks, consumed, stored)
      ensures edits.Some? ==>
        calls == old(calls) + 2 && listed == stored && phoneTrack in tracks && wearTrack in tracks
        && edits.value[0].before == tracks[phoneTrack] && edits.value[1].before == tracks[wearTrack]
    {
      hide TrackState, Mutations, Listing, BundleListing, Names, Digests, Released;
      listed, tracks, consumed, stored := map[], map[], {}, map[];
      ghost var k := calls;
      var trackResponse := Fetch();
      if trackResponse.None? { return None, listed, tracks, consumed, stored; }
      var bundleResponse := Fetch();
      if BundlesAt(k + 1) { stored := ListedDigests(BundlesOf(bundleResponse.value).items); }
      if bundleResponse.None? { return None, listed, tracks, consumed, stored; }
      var found, codes := ReadTracks(trackResponse.value);
      if found.None? { return None, listed, tracks, consumed, stored; }
      tracks, consumed := found.value, codes;
      if phoneTrack !in found.value || wearTrack !in found.value { return None, listed, tracks, consumed, stored; }
      var read := ReadBundles(bundleResponse.value);
      if read.None? { return None, listed, tracks, consumed, stored; }
      listed, stored := read.value, read.value;
      edits := Decide(bundles, [phoneTrack, wearTrack], found.value, listed, codes, status);
      assert bundles == [bundles[0], bundles[1]];
    }

    lemma {:induction false} ListedDigests(items: seq<Json>) returns (listed: map<int, string>)
      requires BundleListing(items)
      ensures Digests(listed, items)
      decreases |items|
    {
      hide IsHash;
      listed := map[];
      if items != [] {
        var front, last := items[..|items| - 1], items[|items| - 1];
        var rest := ListedDigests(front);
        listed := rest[Get(last.fields, "versionCode").n := Get(last.fields, "sha256").text];
      }
    }

    /** The plan is for exactly these two bundles and tracks, each edit taken from the track read. */
    ghost predicate Planned(plan: seq<Mutation>, bundles: seq<Bundle>, listed: map<int, string>, edits: seq<Edit>,
        phoneTrack: string, wearTrack: string, status: string, tracks: map<string, Fields>)
      requires |bundles| == 2 && forall b :: b in bundles ==> 1 <= b.code <= CodeMax
    {
      && plan == Plan(bundles, listed, edits) && |edits| == 2
      && edits[0].id == phoneTrack && phoneTrack in tracks && edits[0].before == tracks[phoneTrack]
      && edits[1].id == wearTrack && wearTrack in tracks && edits[1].before == tracks[wearTrack]
      && TrackState(edits[0].before, bundles[0].code, status) == Success(edits[0].after)
      && TrackState(edits[1].before, bundles[1].code, status) == Success(edits[1].after)
    }

    /** One release in one edit: nothing is sent over an unreconciled marker, every mutation is
        confirmed before the next, and the commit comes last. It succeeds exactly when the edit is
        created, what the server holds admits both bundles, and every mutation of the plan is
        answered as it must be. */
    method Apply(preparationHolds: bool, bundles: seq<Bundle>, phoneTrack: string, wearTrack: string, status: string)
      returns (ok: bool, ghost plan: seq<Mutation>, ghost edits: seq<Edit>, ghost listed: map<int, string>, ghost tracks: map<string, Fields>, ghost consumed: set<int>)
      requires directory.Valid() && |bundles| == 2 && forall b :: b in bundles ==> 1 <= b.code <= CodeMax
      modifies this`calls, this`attempted, directory
      ensures directory.Valid()
      ensures old(directory.marker) ==> !ok && directory.log == old(directory.log) && directory.marker
      ensures Upto(Mutations(old(directory.log)), plan)
      ensures ok ==> Mutations(directory.log) == Mutations(old(directory.log)) + plan && !directory.marker
      ensures plan != [CreateEdit] ==> Planned(plan, bundles, listed, edits, phoneTrack, wearTrack, status, tracks)
      ensures !old(directory.marker) && Admitted(old(calls), preparationHolds, phoneTrack, wearTrack, status) ==>
        Surveyed(old(calls) + 2, tracks, consumed, listed)
      ensures plan != [CreateEdit] <==>
        && !old(directory.marker) && Admitted(old(calls), preparationHolds, phoneTrack, wearTrack, status)
        && TracksAt(old(calls) + 2) && BundlesAt(old(calls) + 3)
        && Decides(bundles, phoneTrack, wearTrack, status, tracks, consumed, listed)
      ensures ok <==> plan != [CreateEdit] && AllGood(old(calls) + 4, AfterFirst(plan), EditAt(old(calls)))
    {
      hide Mutations, TrackState, Accepts, Expects, Uploads, Puts, TracksAt, BundlesAt, Holds, Decides, AllGood;
      ghost var before, k := Mutations(directory.log), calls;
      plan, edits, listed, tracks, consumed := [CreateEdit], [], map[], map[], {};
      ok := false;
      assert before == before + plan[..0] && before + [CreateEdit] == before + plan[..1];
      UptoIs(before, plan, 0);
      if !IsTrackName(phoneTrack) || !IsWearTrack(wearTrack) || !Requested(status) || !preparationHolds || directory.marker { return; }
      GoodIs(k, CreateEdit, "");
      var created := Perform(CreateEdit, NewEdit);
      if created.None? {
        StoppedAt(before, plan, [], CreateEdit);
        return;
      }
      AcceptedId(created.value);
      var edit := created.value["id"].text;
      UptoIs(before, plan, 1);
      var decided, found;
      decided, found, tracks, consumed, listed := Survey(bundles, phoneTrack, wearTrack, status);
      if decided.None? {
        UptoIs(before, plan, 1);
        return;
      }
      plan, edits := Plan(bundles, found, decided.value), decided.value;
      forall e | e in edits && e.after != e.before ensures "releases" in e.after && e.after["releases"].List? {
        var i :| 0 <= i < 2 && edits[i] == e;
        EditedReleases(e.before, bundles[i].code, status, e.after);
      }
      ok := Execute(edit, bundles, found, decided.value, before);
    }

    /** The arguments are well-formed and an edit is created. */
    ghost predicate Admitted(k: nat, preparationHolds: bool, phoneTrack: string, wearTrack: string, status: string) {
      IsTrackName(phoneTrack) && IsWearTrack(wearTrack) && Requested(status) && preparationHolds && Good(k, CreateEdit, "")
    }

    function EditAt(k: nat): string {
      var r := ResponseOf(fates(k));
      if r.Some? && Get(r.value, "id").Str? then Get(r.value, "id").text else ""
    }

    method Execute(edit: string, bundles: seq<Bundle>, listed: map<int, string>, edits: seq<Edit>,
        ghost before: seq<Mutation>) returns (ok: bool)
      requires directory.Valid() && Mutations(directory.log) == before + [CreateEdit] && !directory.marker
      requires forall e :: e in edits ==> e.after != e.before ==> "releases" in e.after && e.after["releases"].List?
      modifies this`calls, this`attempted, directory
      ensures directory.Valid()
      ensures Upto(before, Plan(bundles, listed, edits))
      ensures ok ==> Mutations(directory.log) == before + Plan(bundles, listed, edits) && !directory.marker
      ensures ok <==> AllGood(old(calls), Plan(bundles, listed, edits)[1..], edit)
    {
      hide Mutations, Uploads, Puts, Accepts, Expects, Good, AllGood;
      ghost var plan, k := Plan(bundles, listed, edits), calls;
      ghost var uploads, puts := Uploads(bundles, listed), Puts(edits);
      ghost var one := [CreateEdit] + uploads;
      PlanSplits(k, bundles, listed, edits, edit);
      var uploaded := UploadAll(bundles, listed, edit, before + [CreateEdit]);
      if !uploaded {
        Nested(before, [CreateEdit], uploads, plan);
        return false;
      }
      assert before + [CreateEdit] + uploads == before + one;
      var put := PutAll(edit, edits, before + one);
      if !put {
        Nested(before, one, puts, plan);
        return false;
      }
      ghost var two := one + puts;
      assert before + one + puts == before + two;
      GoodIs(calls, Validate, edit);
      var valid := Perform(Validate, SameEdit(edit));
      if valid.None? {
        StoppedAt(before, plan, two, Validate);
        return false;
      }
      assert before + two + [Validate] == before + (two + [Validate]);
      GoodIs(calls, Commit, edit);
      var committed := Perform(Commit, SameEdit(edit));
      if committed.None? {
        StoppedAt(before, plan, two + [Validate], Commit);
        return false;
      }
      assert plan == two + [Validate] + [Commit];
      UptoIs(before, plan, |plan|);
      ok := true;
    }

    lemma AllGoodJoins(k: nat, a: seq<Mutation>, b: seq<Mutation>, edit: string)
      ensures AllGood(k, a + b, edit) <==> AllGood(k, a, edit) && AllGood(k + 2 * |a|, b, edit)
    {
      hide Good;
      if AllGood(k, a + b, edit) {
        forall j | 0 <= j < |a| ensures Good(k + 2 * j, a[j], edit) { assert (a + b)[j] == a[j]; }
        forall j | 0 <= j < |b| ensures Good(k + 2 * |a| + 2 * j, b[j], edit) { assert (a + b)[|a| + j] == b[j]; }
      }
      if AllGood(k, a, edit) && AllGood(k + 2 * |a|, b, edit) {
        forall j | 0 <= j < |a + b| ensures Good(k + 2 * j, (a + b)[j], edit) {
          if j >= |a| { assert (a + b)[j] == b[j - |a|] && Good(k + 2 * |a| + 2 * (j - |a|), b[j - |a|], edit); }
        }
      }
    }

    lemma PlanSplits(k: nat, bundles: seq<Bundle>, listed: map<int, string>, edits: seq<Edit>, edit: string)
      ensures var u, p := Uploads(bundles, listed), Puts(edits); var m := k + 2 * |u| + 2 * |p|;
        AllGood(k, Plan(bundles, listed, edits)[1..], edit) <==>
          AllGood(k, u, edit) && AllGood(k + 2 * |u|, p, edit) && Good(m, Validate, edit) && Good(m + 2, Commit, edit)
    {
      hide Good, Uploads, Puts, AllGood;
      var u, p := Uploads(bundles, listed), Puts(edits);
      var last := [Validate, Commit];
      assert Plan(bundles, listed, edits)[1..] == u + (p + last);
      AllGoodJoins(k, u, p + last, edit);
      AllGoodJoins(k + 2 * |u|, p, last, edit);
      LastTwo(k + 2 * |u| + 2 * |p|, edit);
    }

    lemma LastTwo(n: nat, edit: string)
      ensures AllGood(n, [Validate, Commit], edit) <==> Good(n, Validate, edit) && Good(n + 2, Commit, edit)
    {
      hide Good;
      var two := [Validate, Commit];
      if AllGood(n, two, edit) { assert Good(n + 2 * 0, two[0], edit) && Good(n + 2 * 1, two[1], edit); }
    }

    lemma Nested(before: seq<Mutation>, done: seq<Mutation>, part: seq<Mutation>, plan: seq<Mutation>)
      requires Upto(before + done, part) && done + part <= plan
      ensures Upto(before, plan)
    {
      hide Mutations;
      var k :| 0 <= k <= |part| && Mutations(directory.log) == before + done + part[..k];
      assert before + done + part[..k] == before + plan[..|done| + k];
      UptoIs(before, plan, |done| + k);
    }

    lemma AcceptedId(response: Fields)
      requires Accepts(response, NewEdit)
      ensures "id" in response && response["id"].Str?
    {}
  }

  lemma {:induction false} UploadsPrefix(bundles: seq<Bundle>, listed: map<int, string>, i: nat)
    requires i <= |bundles|
    ensures Uploads(bundles[..i], listed) <= Uploads(bundles, listed)
    decreases |bundles|
  {
    if i == |bundles| {
      assert bundles[..i] == bundles;
    } else {
      UploadsPrefix(bundles[..|bundles| - 1], listed, i);
      assert bundles[..|bundles| - 1][..i] == bundles[..i];
    }
  }

  lemma {:induction false} PutsPrefix(edits: seq<Edit>, i: nat)
    requires i <= |edits|
    ensures Puts(edits[..i]) <= Puts(edits)
    decreases |edits|
  {
    if i == |edits| {
      assert edits[..i] == edits;
    } else {
      PutsPrefix(edits[..|edits| - 1], i);
      assert edits[..|edits| - 1][..i] == edits[..i];
    }
  }

  lemma EditedReleases(track: Fields, code: int, status: string, after: Fields)
    requires 1 <= code <= CodeMax && TrackState(track, code, status) == Success(after) && after != track
    ensures "releases" in after && after["releases"].List?
  {
    hide ReleaseCodes, WithStatus, Ordinary, Fresh;
  }

  /** Once a run has stopped with a mutation unconfirmed, no number of later runs, by any new
      process, sends anything at all. */
  method KeepTrying(directory: Directory, plays: seq<Play>, bundles: seq<Bundle>, phoneTrack: string,
      wearTrack: string, status: string)
    requires directory.Valid() && Open(directory.log)
    requires forall p :: p in plays ==> p.directory == directory
    requires |bundles| == 2 && forall b :: b in bundles ==> 1 <= b.code <= CodeMax
    modifies plays, directory
    ensures directory.Valid() && directory.marker && directory.log == old(directory.log)
  {
    hide Guarded, Open;
    for i := 0 to |plays|
      invariant directory.Valid() && directory.marker && directory.log == old(directory.log)
    {
      assert plays[i] in plays;
      var ok, plan, edits, listed, tracks, consumed := plays[i].Apply(true, bundles, phoneTrack, wearTrack, status);
    }
  }

  /** A plan commits once, and only as its very last step. */
  lemma CommitIsLast(bundles: seq<Bundle>, listed: map<int, string>, edits: seq<Edit>, k: nat)
    requires k <= |Plan(bundles, listed, edits)|
    ensures Commit in Plan(bundles, listed, edits)[..k] <==> k == |Plan(bundles, listed, edits)|
  {
    UploadsAreUploads(bundles, listed);
    PutsArePuts(edits);
    var plan, front := Plan(bundles, listed, edits), [CreateEdit] + Uploads(bundles, listed) + Puts(edits) + [Validate];
    assert plan == front + [Commit];
    assert Commit !in front;
    assert k < |plan| ==> plan[..k] == front[..k];
    assert plan[..|plan|] == plan;
  }

  lemma {:induction false} UploadsAreUploads(bundles: seq<Bundle>, listed: map<int, string>)
    ensures forall m :: m in Uploads(bundles, listed) ==> m.Upload?
    ensures forall b :: b in bundles && b.code !in listed ==> Upload(b.code, b.digest) in Uploads(bundles, listed)
    ensures forall m :: m in Uploads(bundles, listed) ==> Bundle(m.code, m.digest) in bundles && m.code !in listed
  {
    if bundles != [] {
      var front, last := bundles[..|bundles| - 1], bundles[|bundles| - 1];
      assert bundles == front + [last];
      UploadsAreUploads(front, listed);
    }
  }

  lemma {:induction false} PutsArePuts(edits: seq<Edit>)
    ensures forall m :: m in Puts(edits) ==> m.PutTrack?
  {
    if edits != [] { PutsArePuts(edits[..|edits| - 1]); }
  }
}
