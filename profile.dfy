/**
 * The profile form: fetching the optional profile and worker rows, prefilling the form from
 * them, the comma-separated skills pipeline, and the ordered writes of a profile update.
 */
module Profile {
  import opened Wrappers
  import Seqs
  import Text

  /** A profiles row; every column may be null. */
  datatype ProfileRow = ProfileRow(fullName: Option<string>, username: Option<string>,
                                   avatarUrl: Option<string>, isWorker: Option<bool>)

  /** A workers row; every column may be null, numbers are kept in their decimal form. */
  datatype WorkerRow = WorkerRow(
    categoryId: Option<int>,
    hourlyRate: Option<string>,
    yearsExperience: Option<string>,
    skills: Option<seq<string>>,
    bio: Option<string>,
    location: Option<string>,
    available: Option<bool>)

  /** The store's error code for a `.single()` lookup that found no row. */
  const NotFoundCode := "PGRST116"

  /** Fetching an optional one-to-one row: "no row" yields absent data; any other error fails the fetch. */
  function FetchOptionalRow<T>(reply: SingleReply<T>): Result<Option<T>, string>
  {
    if reply.errorCode.Some? && reply.errorCode.value != NotFoundCode then Failure(reply.errorCode.value)
    else Success(reply.data)
  }

  /** The fetch fails exactly on an error other than "no row", reports that error's code, and otherwise passes the data on. */
  lemma FetchOptionalRowOutcome<T>(reply: SingleReply<T>)
    ensures FetchOptionalRow(reply).Failure? <==> reply.errorCode.Some? && reply.errorCode.value != NotFoundCode
    ensures FetchOptionalRow(reply).Failure? ==> FetchOptionalRow(reply).error == reply.errorCode.value
    ensures FetchOptionalRow(reply).Success? ==> FetchOptionalRow(reply).value == reply.data
    ensures reply == SingleReply(None, Some(NotFoundCode)) ==> FetchOptionalRow(reply) == Success(None)
  {
  }

  /**
   * What the query holds once the fetch has settled: the fetched data, or nothing when the fetch
   * failed (the query function threw and the query's data stays undefined).
   */
  function LoadedRow<T>(reply: SingleReply<T>): Option<T>
  {
    match FetchOptionalRow(reply)
    case Success(data) => data
    case Failure(_) => None
  }

  /** The form sees a row exactly when the store returned one with no error other than "no row". */
  lemma LoadedRowOutcome<T>(reply: SingleReply<T>)
    ensures LoadedRow(reply).Some? <==>
      reply.data.Some? && (reply.errorCode.None? || reply.errorCode.value == NotFoundCode)
    ensures LoadedRow(reply).Some? ==> LoadedRow(reply) == reply.data
    ensures reply.errorCode.Some? && reply.errorCode.value != NotFoundCode ==> LoadedRow(reply).None?
  {
    FetchOptionalRowOutcome(reply);
  }

  // ----- The skills pipeline -----

  predicate NonEmpty(s: string)
  {
    s != ""
  }

  /** `skills.split(",").map(trim).filter(s => s !== "")`. */
  function SkillsArray(skills: string): seq<string>
  {
    Seqs.Filter(Seqs.Map(Text.Split(skills, ','), Text.Trim), NonEmpty)
  }

  /** The prefill of the skills field: `skills?.join(", ") || ""`. */
  function JoinSkills(skills: Option<seq<string>>): string
  {
    match skills
    case None => ""
    case Some(xs) => Text.Join(xs, ", ")
  }

  /** A skill as the pipeline emits it: non-empty, trimmed and free of commas. */
  predicate CleanSkill(s: string)
  {
    s != "" && Text.IsTrimmed(s) && ',' !in s
  }

  lemma TrimKeepsSeparatorOut(s: string)
    requires ',' !in s
    ensures ',' !in Text.Trim(s)
  {
    var i, j := Text.TrimSlice(s);
    assert forall c :: c in s[i..j] ==> c in s;
  }

  /**
   * The pipeline emits only non-empty, trimmed, comma-free skills, and emits them in input
   * order: the output is a subsequence of the trimmed pieces of the input, and it holds exactly
   * the trimmed pieces that are not empty.
   */
  lemma SkillsArrayClean(skills: string)
    ensures forall k :: 0 <= k < |SkillsArray(skills)| ==> CleanSkill(SkillsArray(skills)[k])
    ensures Seqs.IsSubsequence(SkillsArray(skills), Seqs.Map(Text.Split(skills, ','), Text.Trim))
    ensures forall x :: x in SkillsArray(skills) <==> x != "" && x in Seqs.Map(Text.Split(skills, ','), Text.Trim)
  {
    var pieces := Text.Split(skills, ',');
    var trimmed := Seqs.Map(pieces, Text.Trim);
    var r := SkillsArray(skills);
    Text.SplitPiecesSeparatorFree(skills, ',');
    forall k | 0 <= k < |r| ensures CleanSkill(r[k]) {
      Seqs.FilterMembership(trimmed, NonEmpty, r[k]);
      var m :| 0 <= m < |trimmed| && trimmed[m] == r[k];
      var _, _ := Text.TrimSlice(pieces[m]);
      TrimKeepsSeparatorOut(pieces[m]);
    }
    Seqs.FilterIsSubsequence(trimmed, NonEmpty);
    forall x ensures x in r <==> x != "" && x in trimmed {
      Seqs.FilterMembership(trimmed, NonEmpty, x);
    }
  }

  /** Splitting a list joined with ", " on commas gives back its items, all but the first with the space in front. */
  lemma {:induction false} SplitSpacedJoin(xs: seq<string>, p: string)
    requires |xs| >= 1 && ',' !in p
    requires forall k :: 0 <= k < |xs| ==> ',' !in xs[k]
    ensures var r := Text.Split(p + Text.Join(xs, ", "), ',');
      |r| == |xs| && r[0] == p + xs[0] && forall k :: 1 <= k < |xs| ==> r[k] == " " + xs[k]
    decreases |xs|
  {
    if |xs| == 1 {
      assert forall c :: c in p + xs[0] ==> c in p || c in xs[0];
      Text.SplitSeparatorFree(p + xs[0], ',');
    } else {
      var rest := xs[1..];
      assert p + Text.Join(xs, ", ") == (p + xs[0]) + [','] + (" " + Text.Join(rest, ", "));
      assert forall c :: c in p + xs[0] ==> c in p || c in xs[0];
      Text.SplitAfterPiece(p + xs[0], ',', " " + Text.Join(rest, ", "));
      SplitSpacedJoin(rest, " ");
    }
  }

  /** Splitting a list joined with ", " on commas gives back its first item, then the others with the space in front. */
  lemma SplitJoinedPieces(xs: seq<string>)
    requires |xs| >= 1
    requires forall k :: 0 <= k < |xs| ==> ',' !in xs[k]
    ensures var r := Text.Split(Text.Join(xs, ", "), ',');
      |r| == |xs| && r[0] == xs[0] && forall k :: 1 <= k < |xs| ==> r[k] == " " + xs[k]
  {
    SplitSpacedJoin(xs, "");
    assert "" + Text.Join(xs, ", ") == Text.Join(xs, ", ");
    assert "" + xs[0] == xs[0];
  }

  /** A clean skill is its own trim, with or without the space the join puts in front of it. */
  lemma TrimPiece(x: string, piece: string)
    requires CleanSkill(x) && (piece == x || piece == " " + x)
    ensures Text.Trim(piece) == x
  {
    if piece == x {
      Text.TrimOfTrimmed(x);
    } else {
      Text.TrimAfterSpace(x);
    }
  }

  /** Trimming the comma-separated pieces of a list joined with ", " gives back its (clean) items. */
  lemma TrimJoinedPieces(xs: seq<string>)
    requires |xs| >= 1
    requires forall k :: 0 <= k < |xs| ==> CleanSkill(xs[k])
    ensures Seqs.Map(Text.Split(Text.Join(xs, ", "), ','), Text.Trim) == xs
  {
    var pieces := Text.Split(Text.Join(xs, ", "), ',');
    assert forall k :: 0 <= k < |xs| ==> ',' !in xs[k] by {
      forall k | 0 <= k < |xs| ensures ',' !in xs[k] {
        assert CleanSkill(xs[k]);
      }
    }
    SplitJoinedPieces(xs);
    var trimmed := Seqs.Map(pieces, Text.Trim);
    forall k | 0 <= k < |xs| ensures trimmed[k] == xs[k] {
      TrimPiece(xs[k], pieces[k]);
    }
  }

  /** Prefill then save: a list of clean skills, joined with ", " and sent through the pipeline, comes back unchanged. */
  lemma SkillsRoundTrip(xs: seq<string>)
    requires forall k :: 0 <= k < |xs| ==> CleanSkill(xs[k])
    ensures SkillsArray(Text.Join(xs, ", ")) == xs
  {
    if xs == [] {
      assert Text.Join(xs, ", ") == "";
      assert Text.Split("", ',') == [""];
      var trimmed := Seqs.Map([""], Text.Trim);
      assert Text.Trim("") == "";
      assert trimmed == [""];
    } else {
      TrimJoinedPieces(xs);
      var trimmed := Seqs.Map(Text.Split(Text.Join(xs, ", "), ','), Text.Trim);
      assert trimmed == xs;
      Seqs.FilterKeepsAll(xs, NonEmpty);
      assert Seqs.Filter(xs, NonEmpty) == xs;
    }
  }

  /** Saving, prefilling from the saved list and saving again stores the same skills. */
  lemma SkillsStable(skills: string)
    ensures SkillsArray(JoinSkills(Some(SkillsArray(skills)))) == SkillsArray(skills)
  {
    SkillsArrayClean(skills);
    SkillsRoundTrip(SkillsArray(skills));
  }

  // ----- Records written -----

  /** The update written to the profiles row. */
  datatype ProfileUpdate = ProfileUpdate(fullName: string, username: string, avatarUrl: string,
                                         isWorker: bool, updatedAt: string)

  /** The worker row written by an insert or an update; optional numbers are kept as the text to be parsed. */
  datatype WorkerRecord = WorkerRecord(
    id: string,
    categoryId: int,
    hourlyRate: Option<string>,
    yearsExperience: Option<string>,
    skills: seq<string>,
    bio: string,
    location: string,
    available: bool,
    updatedAt: string)

  datatype Write =
    | UpdateProfileRow(profileId: string, update: ProfileUpdate)
    | UpdateWorkerRow(workerId: string, record: WorkerRecord)
    | InsertWorkerRow(record: WorkerRecord)

  /** The worker write: an update when a worker row was fetched earlier, otherwise an insert. */
  function WorkerWrite(fetched: Option<WorkerRow>, record: WorkerRecord): (w: Write)
  {
    if fetched.Some? then UpdateWorkerRow(record.id, record) else InsertWorkerRow(record)
  }

  /** The choice between insert and update depends only on whether a row was fetched, and both carry the same record. */
  lemma WorkerWriteChoice(fetched: Option<WorkerRow>, record: WorkerRecord)
    ensures WorkerWrite(fetched, record).UpdateWorkerRow? <==> fetched.Some?
    ensures WorkerWrite(fetched, record).InsertWorkerRow? <==> fetched.None?
    ensures WorkerWrite(fetched, record).record == record
    ensures WorkerWrite(fetched, record).UpdateWorkerRow? ==> WorkerWrite(fetched, record).workerId == record.id
  {
  }

  const CategoryMissingToast := Toast("Error", "Please select a category for your worker profile", true)
  const ProfileUpdatedToast := Toast("Profile updated", "Your profile has been successfully updated", false)

  function UpdateErrorToast(message: string): Toast
  {
    Toast("Error updating profile", message, true)
  }

  /** The profile form's state, with the rows fetched for the signed-in user. */
  class ProfileForm {
    var loading: bool
    var isWorker: bool
    var fullName: string
    var username: string
    var avatarUrl: string
    var categoryId: Option<int>
    var hourlyRate: string
    var yearsExperience: string
    var skills: string
    var bio: string
    var location: string
    var available: bool
    var userId: Option<string>
    var profile: Option<ProfileRow>
    var workerProfile: Option<WorkerRow>

    /** The form as first rendered: the fetches have not settled, so neither row is there. */
    constructor (userId: Option<string>)
      ensures this.userId == userId && profile == None && workerProfile == None
      ensures !loading && !isWorker && fullName == "" && username == "" && avatarUrl == ""
      ensures categoryId == None && hourlyRate == "" && yearsExperience == "" && skills == ""
      ensures bio == "" && location == "" && available
    {
      this.userId, profile, workerProfile := userId, None, None;
      loading, isWorker := false, false;
      fullName, username, avatarUrl := "", "", "";
      categoryId, hourlyRate, yearsExperience, skills := None, "", "", "";
      bio, location, available := "", "", true;
    }

    /** The basic fields hold what the prefill makes of the profile row `p`. */
    ghost predicate HoldsProfile(p: ProfileRow)
      reads this
    {
      && fullName == p.fullName.GetOr("") && username == p.username.GetOr("")
      && avatarUrl == p.avatarUrl.GetOr("") && isWorker == p.isWorker.GetOr(false)
    }

    /** The worker fields hold what the prefill makes of the worker row `w`. */
    ghost predicate HoldsWorkerRow(w: WorkerRow)
      reads this
    {
      && categoryId == w.categoryId
      && hourlyRate == w.hourlyRate.GetOr("") && yearsExperience == w.yearsExperience.GetOr("")
      && skills == JoinSkills(w.skills)
      && bio == w.bio.GetOr("") && location == w.location.GetOr("")
      && available
    }

    /** The record the form's worker fields make for the user `id` and the chosen category. */
    function WorkerData(id: string, category: int, now: string): (r: WorkerRecord)
      reads this
    {
      WorkerRecord(id, category, EmptyToNull(hourlyRate), EmptyToNull(yearsExperience),
                   SkillsArray(skills), bio, location, available, now)
    }

    /** The prefill from a fetched profile row: null columns become "" (and false for the worker flag). */
    method PrefillProfile(p: ProfileRow)
      modifies this`fullName, this`username, this`avatarUrl, this`isWorker
      ensures fullName == p.fullName.GetOr("") && username == p.username.GetOr("")
      ensures avatarUrl == p.avatarUrl.GetOr("") && isWorker == p.isWorker.GetOr(false)
    {
      fullName := if Truthy(p.fullName) then p.fullName.value else "";
      username := if Truthy(p.username) then p.username.value else "";
      avatarUrl := if Truthy(p.avatarUrl) then p.avatarUrl.value else "";
      isWorker := p.isWorker == Some(true);
    }

    /** The prefill from a fetched worker row: null columns become "", and `available` is always set to true. */
    method PrefillWorker(w: WorkerRow)
      modifies this`categoryId, this`hourlyRate, this`yearsExperience, this`skills, this`bio, this`location, this`available
      ensures categoryId == w.categoryId
      ensures hourlyRate == w.hourlyRate.GetOr("") && yearsExperience == w.yearsExperience.GetOr("")
      ensures skills == JoinSkills(w.skills)
      ensures bio == w.bio.GetOr("") && location == w.location.GetOr("")
      ensures available
    {
      categoryId := w.categoryId;
      hourlyRate := if Truthy(w.hourlyRate) then w.hourlyRate.value else "";
      yearsExperience := if Truthy(w.yearsExperience) then w.yearsExperience.value else "";
      var joined := if w.skills.Some? then Text.Join(w.skills.value, ", ") else "";
      skills := joined;
      bio := if Truthy(w.bio) then w.bio.value else "";
      location := if Truthy(w.location) then w.location.value else "";
      available := (w.available == Some(true)) || true;
    }

    /**
     * The prefill effect. A fetched profile fills the basic fields and a fetched worker row fills
     * the worker fields; a row that is absent leaves its fields alone.
     */
    method Prefill()
      modifies this`fullName, this`username, this`avatarUrl, this`isWorker
      modifies this`categoryId, this`hourlyRate, this`yearsExperience, this`skills, this`bio, this`location, this`available
      ensures profile.Some? ==> HoldsProfile(profile.value)
      ensures profile.None? ==>
        fullName == old(fullName) && username == old(username) && avatarUrl == old(avatarUrl) && isWorker == old(isWorker)
      ensures workerProfile.Some? ==> HoldsWorkerRow(workerProfile.value)
      ensures workerProfile.None? ==>
        && categoryId == old(categoryId) && hourlyRate == old(hourlyRate) && yearsExperience == old(yearsExperience)
        && skills == old(skills) && bio == old(bio) && location == old(location) && available == old(available)
    {
      if profile.Some? {
        PrefillProfile(profile.value);
      }
      if workerProfile.Some? {
        PrefillWorker(workerProfile.value);
      }
    }

    /**
     * The two row fetches settled with these replies: each query holds its `LoadedRow`, and the
     * prefill effect runs. A failed fetch leaves its query empty, exactly as "no row" does, so the
     * fields it would have filled keep their previous values.
     */
    method RowsLoaded(profileReply: SingleReply<ProfileRow>, workerReply: SingleReply<WorkerRow>)
      modifies this`profile, this`workerProfile
      modifies this`fullName, this`username, this`avatarUrl, this`isWorker
      modifies this`categoryId, this`hourlyRate, this`yearsExperience, this`skills, this`bio, this`location, this`available
      ensures profile == LoadedRow(profileReply) && workerProfile == LoadedRow(workerReply)
      ensures profile.Some? ==> HoldsProfile(profile.value)
      ensures profile.None? ==>
        fullName == old(fullName) && username == old(username) && avatarUrl == old(avatarUrl) && isWorker == old(isWorker)
      ensures workerProfile.Some? ==> HoldsWorkerRow(workerProfile.value)
      ensures workerProfile.None? ==>
        && categoryId == old(categoryId) && hourlyRate == old(hourlyRate) && yearsExperience == old(yearsExperience)
        && skills == old(skills) && bio == old(bio) && location == old(location) && available == old(available)
    {
      profile := LoadedRow(profileReply);
      workerProfile := LoadedRow(workerReply);
      Prefill();
    }

    /**
     * Saving the form. Without a user nothing is written. Otherwise the profile update is always
     * the first write; a failed profile write stops there with the error toast. With the worker
     * flag off nothing else is written. With it on and no category chosen, no worker write happens
     * and the category toast is shown; with a category, exactly one worker write follows (an update
     * if a worker row was fetched, an insert otherwise). `loading` is false afterwards whenever the
     * save started. `profileError` and `workerError` are the store's answers to the writes;
     * `profileNow` and `workerNow` are the two readings of the clock, taken when each write is built.
     */
    method UpdateProfile(profileNow: string, workerNow: string, profileError: Option<string>, workerError: Option<string>)
      returns (writes: seq<Write>, toast: Option<Toast>)
      modifies this`loading
      ensures !Truthy(userId) ==> writes == [] && toast.None? && loading == old(loading)
      ensures Truthy(userId) ==>
        && !loading && 1 <= |writes| <= 2
        && writes[0] == UpdateProfileRow(userId.value, ProfileUpdate(fullName, username, avatarUrl, isWorker, profileNow))
      ensures Truthy(userId) && profileError.Some? ==>
        |writes| == 1 && toast == Some(UpdateErrorToast(profileError.value))
      ensures Truthy(userId) && profileError.None? && !isWorker ==>
        |writes| == 1 && toast == Some(ProfileUpdatedToast)
      ensures Truthy(userId) && profileError.None? && isWorker && !TruthyInt(categoryId) ==>
        |writes| == 1 && toast == Some(CategoryMissingToast)
      ensures Truthy(userId) && profileError.None? && isWorker && TruthyInt(categoryId) ==>
        && |writes| == 2
        && writes[1] == WorkerWrite(workerProfile, WorkerData(userId.value, categoryId.value, workerNow))
        && toast == Some(if workerError.None? then ProfileUpdatedToast else UpdateErrorToast(workerError.value))
    {
      writes, toast := [], None;
      if !Truthy(userId) {
        return;
      }
      loading := true;
      var id := userId.value;
      writes := writes + [UpdateProfileRow(id, ProfileUpdate(fullName, username, avatarUrl, isWorker, profileNow))];
      if profileError.Some? {
        toast := Some(UpdateErrorToast(profileError.value));
      } else if isWorker && !TruthyInt(categoryId) {
        toast := Some(CategoryMissingToast);
      } else {
        if isWorker {
          var workerData := WorkerData(id, categoryId.value, workerNow);
          if workerProfile.Some? {
            writes := writes + [UpdateWorkerRow(id, workerData)];
          } else {
            writes := writes + [InsertWorkerRow(workerData)];
          }
        }
        if isWorker && workerError.Some? {
          toast := Some(UpdateErrorToast(workerError.value));
        } else {
          toast := Some(ProfileUpdatedToast);
        }
      }
      loading := false;
    }
  }

  /**
   * A worker fetch that failed with a real error leaves the form as if no worker row existed:
   * a later save with the worker flag on and a category inserts the worker row instead of updating it.
   */
  lemma FailedWorkerFetchInserts(reply: SingleReply<WorkerRow>, record: WorkerRecord)
    requires reply.errorCode.Some? && reply.errorCode.value != NotFoundCode
    ensures WorkerWrite(LoadedRow(reply), record) == InsertWorkerRow(record)
  {
    LoadedRowOutcome(reply);
  }

  /** The worker record written by a save: an empty rate or experience field is null, and the skills are the pipeline's clean list. */
  lemma WorkerRecordFields(form: ProfileForm, id: string, category: int, now: string)
    ensures var r := form.WorkerData(id, category, now);
      && r.id == id && r.categoryId == category
      && (r.hourlyRate.None? <==> form.hourlyRate == "")
      && (r.yearsExperience.None? <==> form.yearsExperience == "")
      && r.skills == SkillsArray(form.skills)
      && forall k :: 0 <= k < |r.skills| ==> CleanSkill(r.skills[k])
  {
    SkillsArrayClean(form.skills);
  }
}
