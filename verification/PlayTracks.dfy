/** Google Play track state: which releases a track may hold, the conservative edit of one
    release, and what counts as the server echoing that edit. */
module PlayTracks {
  import opened Wrappers
  import opened Digits

  // ---- JSON ----

  datatype Json = Null | Bool(flag: bool) | Int(n: int) | Str(text: string) | List(items: seq<Json>) | Obj(fields: Fields)

  type Fields = map<string, Json>

  function Get(f: Fields, key: string): Json { if key in f then f[key] else Null }

  // ---- release_codes ----

  const CodeMax := 2147483647

  predicate IsCode(j: Json) {
    j.Str? && 1 <= |j.text| <= 10 && AllDigits(j.text) && j.text[0] != '0' && Number(j.text) <= CodeMax
  }

  function CodeOf(j: Json): int { if IsCode(j) then Number(j.text) else 0 }

  /** The version codes of a release, if they are a plain list of distinct code texts. */
  function ReleaseCodes(release: Json): Option<set<int>> {
    if !release.Obj? then None
    else
      var codes := Get(release.fields, "versionCodes");
      if !codes.List? || codes.items == [] || |codes.items| > 10000 then None
      else if exists i :: 0 <= i < |codes.items| && !IsCode(codes.items[i]) then None
      else if exists i, j :: 0 <= i < j < |codes.items| && codes.items[i] == codes.items[j] then None
      else Some(set i | 0 <= i < |codes.items| :: CodeOf(codes.items[i]))
  }

  function CodesOf(release: Json): set<int> {
    if ReleaseCodes(release).Some? then ReleaseCodes(release).value else {}
  }

  /** `str(code)` reads back as that code alone. */
  lemma OwnCode(code: int)
    requires 1 <= code <= CodeMax
    ensures IsCode(Str(Pad(code, 1))) && CodeOf(Str(Pad(code, 1))) == code
  {
    NumberOfPad(code, 1);
    TextLength(code, 10);
    FirstDigit(code, 1);
  }

  lemma {:induction false} TextLength(n: nat, digits: nat)
    requires n < Pow10(digits) && digits >= 1
    ensures |Pad(n, 1)| <= digits && |Pad(n, 0)| <= digits
    decreases digits
  {
    if n >= 10 { TextLength(n / 10, digits - 1); }
  }

  lemma {:induction false} FirstDigit(n: nat, width: nat)
    requires n > 0 && width <= 1
    ensures Pad(n, width)[0] != '0'
    decreases n
  {
    if n >= 10 { FirstDigit(n / 10, 0); }
  }

  /** The text a version code is printed as. */
  predicate Spells(j: Json, code: int) { 1 <= code <= 2147483647 && j == Str(Pad(code, 1)) }

  ghost predicate IsSpelled(j: Json) { exists code :: Spells(j, code) }

  /** A number printed without a leading zero is printed as its own text. */
  lemma {:induction false} PadPlain(n: nat, width: nat)
    requires width >= 1 && Pad(n, width)[0] != '0'
    ensures Pad(n, width) == Pad(n, 1)
    decreases width
  {
    if width > 1 {
      ZeroPads(width - 1);
      PadPlain(n / 10, width - 1);
    }
  }

  lemma {:induction false} ZeroPads(width: nat)
    ensures Pad(0, width)[0] == '0'
    decreases width
  {
    if width > 1 { ZeroPads(width - 1); }
  }

  lemma CodeTexts(j: Json)
    ensures IsCode(j) ==> Spells(j, CodeOf(j))
    ensures forall code :: Spells(j, code) ==> IsCode(j) && CodeOf(j) == code
  {
    if IsCode(j) {
      PadOfNumber(j.text);
      PadPlain(Number(j.text), |j.text|);
      ZeroPads(1);
    }
    forall code | Spells(j, code) ensures IsCode(j) && CodeOf(j) == code { OwnCode(code); }
  }

  /** Between one and ten thousand texts of version codes, none of them twice. */
  ghost predicate ListsCodes(release: Json) {
    && release.Obj? && Get(release.fields, "versionCodes").List?
    && var items := Get(release.fields, "versionCodes").items;
       && 1 <= |items| <= 10000
       && (forall i :: 0 <= i < |items| ==> IsSpelled(items[i]))
       && Distinct(items)
  }

  predicate Distinct(items: seq<Json>) { forall i, j :: 0 <= i < j < |items| ==> items[i] != items[j] }

  predicate AllCodes(items: seq<Json>) { forall i :: 0 <= i < |items| ==> IsCode(items[i]) }

  lemma ReadsIff(release: Json)
    ensures ReleaseCodes(release).Some? <==>
      && release.Obj? && Get(release.fields, "versionCodes").List?
      && var items := Get(release.fields, "versionCodes").items; 1 <= |items| <= 10000 && AllCodes(items) && Distinct(items)
  {
    hide IsCode, CodeOf;
  }

  lemma AllSpelled(items: seq<Json>)
    ensures AllCodes(items) <==> forall i :: 0 <= i < |items| ==> IsSpelled(items[i])
  {
    hide IsCode, CodeOf;
    forall i | 0 <= i < |items| ensures IsCode(items[i]) <==> IsSpelled(items[i]) { CodeTexts(items[i]); }
  }

  /** A release's codes are read exactly when it lists texts of codes, and they are the codes
      whose texts it lists. */
  lemma ReleaseCodesIff(release: Json)
    ensures ReleaseCodes(release).Some? <==> ListsCodes(release)
    ensures ListsCodes(release) ==> forall code ::
      code in ReleaseCodes(release).value <==> 1 <= code <= CodeMax && Str(Pad(code, 1)) in Get(release.fields, "versionCodes").items
  {
    hide IsCode, CodeOf, IsSpelled;
    ReadsIff(release);
    if release.Obj? && Get(release.fields, "versionCodes").List? {
      var items := Get(release.fields, "versionCodes").items;
      AllSpelled(items);
      if ListsCodes(release) {
        forall code ensures code in ReleaseCodes(release).value <==> 1 <= code <= CodeMax && Str(Pad(code, 1)) in items {
          ListedCode(items, code);
        }
      }
    }
  }

  lemma ListedCode(items: seq<Json>, code: int)
    requires forall i :: 0 <= i < |items| ==> IsCode(items[i])
    ensures code in (set i | 0 <= i < |items| :: CodeOf(items[i])) <==> 1 <= code <= CodeMax && Str(Pad(code, 1)) in items
  {
    hide IsCode, CodeOf;
    forall i | 0 <= i < |items| ensures CodeOf(items[i]) == code <==> Spells(items[i], code) { CodeTexts(items[i]); }
  }

  // ---- track_state ----

  function StatusOf(release: Json): Json { if release.Obj? then Get(release.fields, "status") else Null }

  /** The first release with a status. */
  function WithStatus(releases: seq<Json>, status: string): Option<Json> {
    if releases == [] then None
    else if StatusOf(releases[0]) == Str(status) then Some(releases[0])
    else WithStatus(releases[1..], status)
  }

  /** At most one draft and one completed release, with disjoint codes and none newer. */
  predicate Ordinary(releases: seq<Json>, code: int) {
    && |releases| <= 2
    && (forall i :: 0 <= i < |releases| ==>
          && ReleaseCodes(releases[i]).Some?
          && (StatusOf(releases[i]) == Str("draft") || StatusOf(releases[i]) == Str("completed"))
          && forall c :: c in CodesOf(releases[i]) ==> c <= code)
    && (forall i, j :: 0 <= i < j < |releases| ==>
          StatusOf(releases[i]) != StatusOf(releases[j]) && CodesOf(releases[i]) * CodesOf(releases[j]) == {})
  }

  function Fresh(code: int, status: string): Json
    requires code >= 1
  {
    Obj(map["versionCodes" := List([Str(Pad(code, 1))]), "status" := Str(status)])
  }

  function ReleasesOf(track: Fields): Json { if "releases" in track then track["releases"] else List([]) }

  function TrackState(track: Fields, code: int, status: string): Result<Fields>
    requires 1 <= code <= CodeMax
  {
    var all := ReleasesOf(track);
    if !all.List? || !Ordinary(all.items, code) then Failure
    else
      var releases := all.items;
      var completed, draft := WithStatus(releases, "completed"), WithStatus(releases, "draft");
      if completed.Some? && code in CodesOf(completed.value) then
        if status == "completed" && draft.None? then Success(track) else Failure
      else if draft.Some? && CodesOf(draft.value) != {code} then Failure
      else if draft.Some? && status == "draft" then Success(track)
      else
        var desired := if draft.Some? && draft.value.Obj? then Obj(draft.value.fields["status" := Str(status)])
                       else Fresh(code, status);
        if status == "draft" then Success(track["releases" := List(releases + [desired])])
        else if completed.Some? && |CodesOf(completed.value)| != 1 then Failure
        else Success(track["releases" := List([desired])])
  }

  /** The loop over the stored releases, with its dictionary and set. */
  method SortReleases(releases: seq<Json>, code: int) returns (ok: bool, completed: Option<Json>, draft: Option<Json>)
    ensures ok == Ordinary(releases, code)
    ensures ok ==> completed == WithStatus(releases, "completed") && draft == WithStatus(releases, "draft")
  {
    if |releases| > 2 { return false, None, None; }
    var byStatus: map<string, Json> := map[];
    var seen: set<int> := {};
    assert Ordinary(releases[..0], code);
    hide ReleaseCodes, CodesOf, WithStatus, Ordinary, StatusOf, Alone;
    for i := 0 to |releases|
      invariant Ordinary(releases[..i], code) && Seen(releases, i, byStatus.Keys, seen)
      invariant forall s :: s in byStatus ==> WithStatus(releases, s) == Some(byStatus[s])
    {
      var codes := ReleaseCodes(releases[i]);
      var state := StatusOf(releases[i]);
      StillOrdinary(releases, code, i);
      Verdict(releases, i, byStatus.Keys, seen);
      if codes.None? { return false, None, None; }
      ReadCodesAre(releases[i]);
      if !(state == Str("draft") || state == Str("completed")) || state.text in byStatus || seen * codes.value != {} {
        return false, None, None;
      }
      if exists c :: c in codes.value && c > code { return false, None, None; }
      FirstWith(releases, i, state.text);
      byStatus := byStatus[state.text := releases[i]];
      seen := seen + codes.value;
    }
    assert releases[..|releases|] == releases;
    NoneWith(releases, "completed");
    NoneWith(releases, "draft");
    assert forall s :: s in byStatus <==> exists k :: 0 <= k < |releases| && StatusOf(releases[k]) == Str(s);
    return true, if "completed" in byStatus then Some(byStatus["completed"]) else None,
                 if "draft" in byStatus then Some(byStatus["draft"]) else None;
  }

  lemma ReadCodesAre(release: Json)
    requires ReleaseCodes(release).Some?
    ensures CodesOf(release) == ReleaseCodes(release).value
  {
    hide ReleaseCodes;
  }

  lemma StillOrdinary(releases: seq<Json>, code: int, i: nat)
    requires i < |releases| <= 2 && Ordinary(releases[..i], code)
    ensures Ordinary(releases, code) ==> Ordinary(releases[..i + 1], code)
    ensures Ordinary(releases[..i + 1], code) <==>
      && ReleaseCodes(releases[i]).Some?
      && (StatusOf(releases[i]) == Str("draft") || StatusOf(releases[i]) == Str("completed"))
      && (forall c :: c in CodesOf(releases[i]) ==> c <= code)
      && Alone(releases, i)
  {
    hide ReleaseCodes, StatusOf, CodesOf;
    var front := releases[..i + 1];
    assert forall k :: 0 <= k <= i ==> front[k] == releases[k];
    assert forall k :: 0 <= k < i ==> releases[..i][k] == releases[k];
  }

  predicate Alone(releases: seq<Json>, i: nat)
    requires i < |releases|
  {
    forall k :: 0 <= k < i ==> StatusOf(releases[k]) != StatusOf(releases[i]) && CodesOf(releases[k]) * CodesOf(releases[i]) == {}
  }

  /** What the loop has noted of the releases before `i`. */
  ghost predicate Seen(releases: seq<Json>, i: nat, statuses: set<string>, seen: set<int>)
    requires i <= |releases|
  {
    && (forall s :: s in statuses <==> exists k :: 0 <= k < i && StatusOf(releases[k]) == Str(s))
    && (forall c :: c in seen <==> exists k :: 0 <= k < i && c in CodesOf(releases[k]))
  }

  lemma Verdict(releases: seq<Json>, i: nat, statuses: set<string>, seen: set<int>)
    requires i < |releases| && Seen(releases, i, statuses, seen)
    ensures StatusOf(releases[i]).Str? ==>
      (Alone(releases, i) <==> StatusOf(releases[i]).text !in statuses && seen * CodesOf(releases[i]) == {})
    ensures StatusOf(releases[i]).Str? ==>
      Seen(releases, i + 1, statuses + {StatusOf(releases[i]).text}, seen + CodesOf(releases[i]))
  {
    hide ReleaseCodes, StatusOf, CodesOf;
    Apart(seen, CodesOf(releases[i]));
    forall k | 0 <= k < i { Apart(CodesOf(releases[k]), CodesOf(releases[i])); }
  }

  lemma {:induction false} FirstWith(releases: seq<Json>, i: nat, status: string)
    requires i < |releases| && StatusOf(releases[i]) == Str(status)
    requires forall k :: 0 <= k < i ==> StatusOf(releases[k]) != Str(status)
    ensures WithStatus(releases, status) == Some(releases[i])
    decreases i
  {
    if i > 0 { FirstWith(releases[1..], i - 1, status); }
  }

  lemma {:induction false} NoneWith(releases: seq<Json>, status: string)
    ensures WithStatus(releases, status).None? <==> forall k :: 0 <= k < |releases| ==> StatusOf(releases[k]) != Str(status)
    ensures WithStatus(releases, status).Some? ==>
      WithStatus(releases, status).value in releases && StatusOf(WithStatus(releases, status).value) == Str(status)
  {
    if releases != [] && StatusOf(releases[0]) != Str(status) {
      NoneWith(releases[1..], status);
      assert releases == [releases[0]] + releases[1..];
    }
  }

  method UpdateTrack(track: Fields, code: int, status: string) returns (r: Result<Fields>)
    requires 1 <= code <= CodeMax
    ensures r == TrackState(track, code, status)
  {
    hide WithStatus, ReleaseCodes, Ordinary, Fresh;
    var all := ReleasesOf(track);
    if !all.List? { return Failure; }
    var ok, completed, draft := SortReleases(all.items, code);
    if !ok { return Failure; }
    if completed.Some? && code in CodesOf(completed.value) {
      if status != "completed" || draft.Some? { return Failure; }
      return Success(track);
    }
    if draft.Some? {
      if CodesOf(draft.value) != {code} { return Failure; }
      if status == "draft" { return Success(track); }
    }
    var desired := if draft.Some? && draft.value.Obj? then Obj(draft.value.fields["status" := Str(status)]) else Fresh(code, status);
    if status == "draft" { return Success(track["releases" := List(all.items + [desired])]); }
    if completed.Some? && |CodesOf(completed.value)| != 1 { return Failure; }
    r := Success(track["releases" := List([desired])]);
  }

  // ---- Which requests succeed, and what they leave ----

  /** The stored releases; a track without any has none. */
  predicate Stores(track: Fields, releases: seq<Json>) {
    if "releases" in track then track["releases"] == List(releases) else releases == []
  }

  predicate Holds(release: Json, status: string) { release.Obj? && Get(release.fields, "status") == Str(status) }

  predicate Placed(r: Json) { Holds(r, "draft") || Holds(r, "completed") }

  predicate SameStatus(a: Json, b: Json) {
    (Holds(a, "draft") && Holds(b, "draft")) || (Holds(a, "completed") && Holds(b, "completed"))
  }

  /** One of each status, and no code in two of them. */
  ghost predicate Disjoint(releases: seq<Json>) {
    && (forall i, j :: 0 <= i < j < |releases| ==> !SameStatus(releases[i], releases[j]))
    && (forall i, j, c :: 0 <= i < j < |releases| && c in CodesOf(releases[i]) ==> c !in CodesOf(releases[j]))
  }

  /** Drafts and completed releases, one of each at the most, no code in two of them and none
      newer than the requested one. */
  lemma OrdinaryIff(releases: seq<Json>, code: int)
    ensures Ordinary(releases, code) <==>
      && (forall r :: r in releases ==> ListsCodes(r) && Placed(r)) && Disjoint(releases)
      && (forall r, c :: r in releases && c in CodesOf(r) ==> c <= code)
  {
    hide ReleaseCodes, CodesOf, ListsCodes, StatusOf, Placed, SameStatus;
    forall r ensures ReleaseCodes(r).Some? <==> ListsCodes(r) { ReleaseCodesIff(r); }
    forall r ensures Placed(r) <==> StatusOf(r) == Str("draft") || StatusOf(r) == Str("completed") { PlacedIs(r); }
    forall i, j | 0 <= i < j < |releases| && Placed(releases[i]) && Placed(releases[j])
      ensures SameStatus(releases[i], releases[j]) <==> StatusOf(releases[i]) == StatusOf(releases[j])
    {
      SameStatusIs(releases[i], releases[j]);
    }
    forall i, j | 0 <= i < j < |releases| { Apart(CodesOf(releases[i]), CodesOf(releases[j])); }
    if |releases| > 2 { Crowded(releases[0], releases[1], releases[2]); }
  }

  lemma PlacedIs(r: Json)
    ensures Placed(r) <==> StatusOf(r) == Str("draft") || StatusOf(r) == Str("completed")
  {}

  lemma SameStatusIs(a: Json, b: Json)
    requires Placed(a) && Placed(b)
    ensures SameStatus(a, b) <==> StatusOf(a) == StatusOf(b)
  {}

  lemma Crowded(a: Json, b: Json, d: Json)
    ensures Placed(a) && Placed(b) && Placed(d) ==> SameStatus(a, b) || SameStatus(a, d) || SameStatus(b, d)
  {}

  lemma Apart(a: set<int>, b: set<int>)
    ensures a * b == {} <==> forall c :: c in a ==> c !in b
  {
    if forall c :: c in a ==> c !in b { assert a * b == {}; }
    forall c | c in a && c in b ensures a * b != {} { assert c in a * b; }
  }

  /** A request is refused for any other track than an ordinary one, for a draft of a code that is
      completed, for a completed code beside a draft, for a draft of any other code, and for a
      completion over a release with several codes; and for nothing else. */
  lemma TrackStateIff(track: Fields, code: int, status: string, releases: seq<Json>)
    requires 1 <= code <= CodeMax && Requested(status) && Stores(track, releases)
    ensures TrackState(track, code, status).Success? <==>
      && Ordinary(releases, code)
      && (forall r :: r in releases && Holds(r, "completed") && code in CodesOf(r) ==>
            status == "completed" && forall d :: d in releases ==> !Holds(d, "draft"))
      && (forall d :: d in releases && Holds(d, "draft") ==> CodesOf(d) == {code})
      && (status == "completed" ==>
            forall r :: r in releases && Holds(r, "completed") ==> code in CodesOf(r) || |CodesOf(r)| == 1)
  {
    hide ReleaseCodes, WithStatus, Ordinary, Fresh;
    if Ordinary(releases, code) {
      OnlyOne(releases, code, "completed");
      OnlyOne(releases, code, "draft");
    }
  }

  /** Track states that hold no list are refused. */
  lemma NoReleaseList(track: Fields, code: int, status: string)
    requires 1 <= code <= CodeMax && "releases" in track && !track["releases"].List?
    ensures TrackState(track, code, status).Failure?
  {}

  lemma OnlyOne(releases: seq<Json>, code: int, status: string)
    requires Ordinary(releases, code)
    ensures var found := WithStatus(releases, status);
      && (found.Some? ==> found.value in releases && Holds(found.value, status))
      && forall r :: r in releases && Holds(r, status) ==> found == Some(r)
  {
    hide ReleaseCodes, WithStatus;
    NoneWith(releases, status);
    forall r | r in releases && Holds(r, status) ensures WithStatus(releases, status) == Some(r) {
      var i :| 0 <= i < |releases| && releases[i] == r;
      FirstWith(releases, i, status);
    }
  }

  /** Nothing but the releases is touched. */
  ghost predicate OnlyReleases(track: Fields, after: Fields, releases: seq<Json>) {
    && "releases" in after && after["releases"] == List(releases)
    && forall key :: key != "releases" ==> (key in after <==> key in track) && (key in track ==> after[key] == track[key])
  }

  /** A release of one code alone, with nothing else said about it. */
  predicate Plain(r: Json, code: int, status: string)
    requires 1 <= code <= CodeMax
  {
    && r.Obj? && r.fields.Keys == {"versionCodes", "status"}
    && r.fields["versionCodes"] == List([Str(Pad(code, 1))]) && r.fields["status"] == Str(status)
  }

  /** The release `d` with another status and all else kept. */
  predicate Restated(d: Json, r: Json, status: string) {
    && d.Obj? && r.Obj? && r.fields.Keys == d.fields.Keys + {"status"} && r.fields["status"] == Str(status)
    && forall key :: key in d.fields && key != "status" ==> r.fields[key] == d.fields[key]
  }

  /** What a request leaves: the track as it is when the code is already there as asked; for a
      draft the stored releases and one more; for a completion one completed release alone, the
      draft if there was one, with everything else it says. */
  lemma TrackStateLeaves(track: Fields, code: int, status: string, releases: seq<Json>)
    requires 1 <= code <= CodeMax && Requested(status) && Stores(track, releases) && TrackState(track, code, status).Success?
    ensures var after := TrackState(track, code, status).value;
      if (exists r :: r in releases && Holds(r, "completed") && code in CodesOf(r))
         || (status == "draft" && exists d :: d in releases && Holds(d, "draft")) then after == track
      else if status == "draft" then
        exists r :: Plain(r, code, status) && OnlyReleases(track, after, releases + [r])
      else
        exists r :: OnlyReleases(track, after, [r])
          && (if exists d :: d in releases && Holds(d, "draft")
              then exists d :: d in releases && Holds(d, "draft") && Restated(d, r, status)
              else Plain(r, code, status))
  {
    hide ReleaseCodes, WithStatus, Ordinary, Fresh;
    OnlyOne(releases, code, "completed");
    OnlyOne(releases, code, "draft");
    DraftIsReadable(releases, code);
    FreshIsPlain(code, status);
    var draft := WithStatus(releases, "draft");
    if draft.Some? { RestatedIs(draft.value, status); }
  }

  lemma FreshIsPlain(code: int, status: string)
    requires 1 <= code <= CodeMax
    ensures Plain(Fresh(code, status), code, status)
  {
    assert "versionCodes" != "status" by { assert "versionCodes"[0] != "status"[0]; }
  }

  lemma RestatedIs(d: Json, status: string)
    requires d.Obj?
    ensures Restated(d, Obj(d.fields["status" := Str(status)]), status)
  {}

  // ---- What the edits add up to ----

  predicate Requested(status: string) { status == "draft" || status == "completed" }

  lemma FreshCodes(code: int, status: string)
    requires 1 <= code <= CodeMax
    ensures ReleaseCodes(Fresh(code, status)) == Some({code}) && StatusOf(Fresh(code, status)) == Str(status)
  {
    OwnCode(code);
    var fields := map["versionCodes" := List([Str(Pad(code, 1))]), "status" := Str(status)];
    assert Get(fields, "versionCodes").items == [Str(Pad(code, 1))] && Get(fields, "status") == Str(status) by {
      assert "versionCodes" != "status" by { assert "versionCodes"[0] != "status"[0]; }
    }
    var codes := [Str(Pad(code, 1))];
    var found := set i | 0 <= i < |codes| :: CodeOf(codes[i]);
    assert CodeOf(codes[0]) in found;
    assert found == {code};
  }

  lemma RestatusCodes(release: Json, status: string)
    requires release.Obj?
    ensures var next := Obj(release.fields["status" := Str(status)]);
      ReleaseCodes(next) == ReleaseCodes(release) && StatusOf(next) == Str(status)
  {
    assert "versionCodes" != "status" by { assert "versionCodes"[0] != "status"[0]; }
    assert Get(release.fields["status" := Str(status)], "versionCodes") == Get(release.fields, "versionCodes");
  }

  /** The single release a completed request leaves, given the draft it promotes. */
  function Promoted(draft: Option<Json>, code: int, status: string): Json
    requires 1 <= code <= CodeMax
  {
    if draft.Some? && draft.value.Obj? then Obj(draft.value.fields["status" := Str(status)]) else Fresh(code, status)
  }

  lemma PromotedFacts(draft: Option<Json>, code: int, status: string)
    requires 1 <= code <= CodeMax && (draft.Some? ==> ReleaseCodes(draft.value) == Some({code}))
    ensures ReleaseCodes(Promoted(draft, code, status)) == Some({code}) && StatusOf(Promoted(draft, code, status)) == Str(status)
  {
    if draft.Some? { RestatusCodes(draft.value, status); } else { FreshCodes(code, status); }
  }

  lemma OneOrdinary(release: Json, code: int)
    requires ReleaseCodes(release) == Some({code}) && (StatusOf(release) == Str("draft") || StatusOf(release) == Str("completed"))
    ensures Ordinary([release], code)
    ensures forall s :: WithStatus([release], s) == if StatusOf(release) == Str(s) then Some(release) else None
  {
    assert [release][1..] == [];
  }

  /** Every success leaves an ordinary track in which the requested code is the greatest. */
  lemma CodeIsGreatest(track: Fields, code: int, status: string)
    requires 1 <= code <= CodeMax && Requested(status) && TrackState(track, code, status).Success?
    ensures var after := ReleasesOf(TrackState(track, code, status).value);
      && after.List? && Ordinary(after.items, code)
      && exists i :: 0 <= i < |after.items| && code in CodesOf(after.items[i])
  {
    hide ReleaseCodes, WithStatus;
    var releases := ReleasesOf(track).items;
    var completed, draft := WithStatus(releases, "completed"), WithStatus(releases, "draft");
    NoneWith(releases, "completed");
    NoneWith(releases, "draft");
    if completed.Some? && code in CodesOf(completed.value) {
    } else if draft.Some? && status == "draft" {
    } else {
      PromotedFacts(draft, code, status);
      var desired := Promoted(draft, code, status);
      hide Promoted;
      if status == "draft" {
        AppendedOrdinary(releases, desired, code);
      } else {
        OneOrdinary(desired, code);
        assert code in CodesOf([desired][0]);
      }
    }
  }

  lemma TwoDiffer(releases: seq<Json>, code: int)
    requires Ordinary(releases, code) && |releases| == 2
    ensures StatusOf(releases[0]) != StatusOf(releases[1])
  {
    hide ReleaseCodes;
  }

  /** A track with no draft and an older completed release takes a draft beside it. */
  lemma AppendedOrdinary(releases: seq<Json>, desired: Json, code: int)
    requires Ordinary(releases, code) && WithStatus(releases, "draft").None?
    requires ReleaseCodes(desired) == Some({code}) && StatusOf(desired) == Str("draft")
    requires WithStatus(releases, "completed").Some? ==> code !in CodesOf(WithStatus(releases, "completed").value)
    ensures Ordinary(releases + [desired], code) && code in CodesOf((releases + [desired])[|releases|])
    ensures WithStatus(releases + [desired], "draft") == Some(desired)
    ensures WithStatus(releases + [desired], "completed") == WithStatus(releases, "completed")
  {
    hide ReleaseCodes, WithStatus;
    NoneWith(releases, "draft");
    NoneWith(releases, "completed");
    var all := releases + [desired];
    if |releases| == 2 {
      TwoDiffer(releases, code);
      assert false;
    }
    if |releases| == 1 { FirstWith(all, 0, "completed"); FirstWith(releases, 0, "completed"); }
    FirstWith(all, |releases|, "draft");
    NoneWith(all, "completed");
  }

  /** A draft request keeps every release it finds, in place and unchanged. */
  lemma DraftKeepsReleases(track: Fields, code: int)
    requires 1 <= code <= CodeMax && TrackState(track, code, "draft").Success?
    ensures var before, after := ReleasesOf(track), ReleasesOf(TrackState(track, code, "draft").value);
      before.List? && after.List? && before.items <= after.items && |after.items| <= |before.items| + 1
  {
    hide ReleaseCodes, WithStatus, Ordinary;
  }

  /** Asking twice is asking once. */
  lemma RequestIsIdempotent(track: Fields, code: int, status: string)
    requires 1 <= code <= CodeMax && Requested(status) && TrackState(track, code, status).Success?
    ensures TrackState(TrackState(track, code, status).value, code, status) == TrackState(track, code, status)
  {
    hide ReleaseCodes, WithStatus, Ordinary;
    var releases := ReleasesOf(track).items;
    var completed, draft := WithStatus(releases, "completed"), WithStatus(releases, "draft");
    if completed.Some? && code in CodesOf(completed.value) {
    } else if draft.Some? && status == "draft" {
    } else {
      DraftIsReadable(releases, code);
      PromotedFacts(draft, code, status);
      var desired := Promoted(draft, code, status);
      hide Promoted, Fresh;
      if status == "draft" { AppendedOrdinary(releases, desired, code); } else { OneOrdinary(desired, code); }
    }
  }

  lemma DraftIsReadable(releases: seq<Json>, code: int)
    requires Ordinary(releases, code)
    ensures var draft := WithStatus(releases, "draft"); draft.Some? ==> ReleaseCodes(draft.value).Some? && draft.value.Obj?
  {
    NoneWith(releases, "draft");
    hide WithStatus;
  }

  /** A draft and then its completion leave exactly one completed release with that code alone,
      as completing directly would have. */
  lemma DraftThenCompleted(track: Fields, code: int)
    requires 1 <= code <= CodeMax && TrackState(track, code, "draft").Success?
    requires TrackState(TrackState(track, code, "draft").value, code, "completed").Success?
    ensures var done := TrackState(TrackState(track, code, "draft").value, code, "completed").value;
      && TrackState(track, code, "completed") == Success(done)
      && ReleasesOf(done).List? && |ReleasesOf(done).items| == 1
      && ReleaseCodes(ReleasesOf(done).items[0]) == Some({code}) && StatusOf(ReleasesOf(done).items[0]) == Str("completed")
  {
    hide ReleaseCodes, WithStatus, Ordinary, Fresh;
    var releases := ReleasesOf(track).items;
    var draft := WithStatus(releases, "draft");
    DraftIsReadable(releases, code);
    PromotedFacts(draft, code, "completed");
    if draft.None? {
      PromotedFacts(draft, code, "draft");
      AppendedOrdinary(releases, Promoted(draft, code, "draft"), code);
      FreshRestatus(code);
      assert track["releases" := List(releases + [Fresh(code, "draft")])]["releases" := List([Fresh(code, "completed")])]
          == track["releases" := List([Fresh(code, "completed")])];
    }
  }

  lemma FreshRestatus(code: int)
    requires 1 <= code <= CodeMax
    ensures Fresh(code, "draft").Obj? && Obj(Fresh(code, "draft").fields["status" := Str("completed")]) == Fresh(code, "completed")
  {
    assert Fresh(code, "draft").fields["status" := Str("completed")] == Fresh(code, "completed").fields;
  }

  /** A completion drops at most one finished release, and only one that held a single older
      code. */
  lemma CompletionRetiresOneCode(track: Fields, code: int)
    requires 1 <= code <= CodeMax && TrackState(track, code, "completed").Success?
    requires TrackState(track, code, "completed") != Success(track)
    ensures var before := ReleasesOf(track);
      && before.List?
      && forall i :: 0 <= i < |before.items| && StatusOf(before.items[i]) == Str("completed") ==>
           |CodesOf(before.items[i])| == 1 && forall c :: c in CodesOf(before.items[i]) ==> c < code
  {
    hide ReleaseCodes, WithStatus;
    var releases := ReleasesOf(track).items;
    NoneWith(releases, "completed");
    forall i | 0 <= i < |releases| && StatusOf(releases[i]) == Str("completed")
      ensures WithStatus(releases, "completed") == Some(releases[i])
    {
      FirstWith(releases, i, "completed");
    }
  }

  // ---- verify_track_response ----

  const NameKey := "name"
  const PriorityKey := "inAppUpdatePriority"

  /** Drops what the server may add on its own; nothing when a type is wrong. */
  function Normalized(actual: Json, expected: Json): Option<Json> {
    if !actual.Obj? || !expected.Obj? then None
    else
      var a, e := actual.fields, expected.fields;
      var named := NameKey !in e && NameKey in a;
      if named && !a[NameKey].Str? then None
      else
        var a1 := if named then a - {NameKey} else a;
        if PriorityKey in a1 && !a1[PriorityKey].Int? then None
        else if PriorityKey in a1 && PriorityKey !in e && a1[PriorityKey] != Int(0) then None
        else if PriorityKey in e && !e[PriorityKey].Int? then None
        else Some(Obj(if PriorityKey !in e then a1 - {PriorityKey} else a1))
  }

  method VerifyTrackResponse(result: Fields, desired: Fields) returns (ok: bool)
    requires "releases" in desired && desired["releases"].List?
    ensures ok <==> Echoes(result, desired)
    ensures ok <==>
      && Get(result, "releases").List? && |result["releases"].items| == |desired["releases"].items|
      && (forall i :: 0 <= i < |desired["releases"].items| ==>
            EchoesRelease(result["releases"].items[i], desired["releases"].items[i]))
      && forall key :: key != "releases" ==>
           (key in result <==> key in desired) && (key in desired ==> result[key] == desired[key])
  {
    var actual := Get(result, "releases");
    if !actual.List? || |actual.items| != |desired["releases"].items| { return false; }
    var normalized := [];
    var expected := desired["releases"].items;
    hide Normalized;
    for i := 0 to |expected|
      invariant |normalized| == i
      invariant forall k :: 0 <= k < i ==> Normalized(actual.items[k], expected[k]) == Some(normalized[k])
    {
      var one := Normalized(actual.items[i], expected[i]);
      if one.None? { return false; }
      normalized := normalized + [one.value];
    }
    ok := result["releases" := List(normalized)] == desired;
    EchoesIff(result, desired, normalized);
  }

  /** A release the server may legitimately answer for an expected one. */
  predicate EchoesRelease(actual: Json, expected: Json) {
    && actual.Obj? && expected.Obj?
    && (forall key :: key in expected.fields ==> key in actual.fields && actual.fields[key] == expected.fields[key])
    && (forall key :: key in actual.fields && key !in expected.fields ==>
          (key == NameKey && actual.fields[key].Str?) || (key == PriorityKey && actual.fields[key] == Int(0)))
    && (PriorityKey in expected.fields ==> expected.fields[PriorityKey].Int?)
  }

  /** The response repeats the request, apart from a generated name and a default priority. */
  ghost predicate Echoes(result: Fields, desired: Fields) {
    && "releases" in desired && desired["releases"].List?
    && Get(result, "releases").List? && |result["releases"].items| == |desired["releases"].items|
    && (forall i :: 0 <= i < |desired["releases"].items| ==> EchoesRelease(result["releases"].items[i], desired["releases"].items[i]))
    && (forall key :: key != "releases" ==> (key in result <==> key in desired) && (key in desired ==> result[key] == desired[key]))
  }

  lemma NormalizedEchoes(actual: Json, expected: Json)
    requires expected.Obj?
    ensures Normalized(actual, expected) == Some(expected) <==> EchoesRelease(actual, expected)
  {
    assert NameKey != PriorityKey by { assert NameKey[0] != PriorityKey[0]; }
    if Normalized(actual, expected).Some? {
      var left, e := Normalized(actual, expected).value.fields, expected.fields;
      assert left == e <==> left.Keys == e.Keys && forall key :: key in e ==> key in left && left[key] == e[key];
      if left == e {
        assert forall key :: key in actual.fields && key !in e ==> key !in left;
      } else if EchoesRelease(actual, expected) {
        assert forall key :: key in left ==> key in e;
      }
    }
  }

  lemma EchoesIff(result: Fields, desired: Fields, normalized: seq<Json>)
    requires "releases" in desired && desired["releases"].List? && Get(result, "releases").List?
    requires var actual, expected := result["releases"].items, desired["releases"].items;
      && |actual| == |expected| == |normalized|
      && forall k :: 0 <= k < |expected| ==> Normalized(actual[k], expected[k]) == Some(normalized[k])
    ensures result["releases" := List(normalized)] == desired <==> Echoes(result, desired)
  {
    var actual, expected := result["releases"].items, desired["releases"].items;
    forall k | 0 <= k < |expected| ensures normalized[k] == expected[k] <==> EchoesRelease(actual[k], expected[k]) {
      assert expected[k].Obj?;
      NormalizedEchoes(actual[k], expected[k]);
    }
    hide Normalized, EchoesRelease;
    assert normalized == expected <==> forall k :: 0 <= k < |expected| ==> normalized[k] == expected[k];
    var next := result["releases" := List(normalized)];
    assert next == desired <==> next.Keys == desired.Keys && forall key :: key in desired ==> key in next && next[key] == desired[key];
  }
}
