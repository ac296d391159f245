/** The read-only queries of core/views.py: a conversation between two users, the
    message box's contact list, the exercise-video listing and the related-video
    strip, the hospitals of a location as load_hospitals returns them, the profile's
    mood colour and calculate_age. */
module Selections {
  import opened Base
  import opened Text
  import opened Sequences
  import opened Models
  import opened Forms

  // ---------------------------------------------------------------- messages

  /** The message box's filter: sender and receiver both in {me, other}, not deleted. */
  predicate InConversation(m: Message, me: nat, other: nat)
  {
    (m.sender == me || m.sender == other) && (m.receiver == me || m.receiver == other) && !m.isDeleted
  }

  /** The messages message_box shows between `me` and the selected user, oldest first. */
  function Conversation(msgs: seq<Message>, me: nat, other: nat): (r: seq<Message>)
    ensures forall m :: m in r <==> m in msgs && InConversation(m, me, other)
    ensures forall m :: multiset(r)[m] == if InConversation(m, me, other) then multiset(msgs)[m] else 0
    ensures forall i, j :: 0 <= i < j < |r| ==> r[i].timestamp <= r[j].timestamp
  {
    var r := SortBy(Filter(msgs, (m: Message) => InConversation(m, me, other)), (m: Message) => m.timestamp);
    assert SortedBy(r, (m: Message) => m.timestamp);
    r
  }

  /** Both participants see the same conversation, in the same order. */
  lemma ConversationSymmetric(msgs: seq<Message>, a: nat, b: nat)
    ensures Conversation(msgs, a, b) == Conversation(msgs, b, a)
  {
    FilterAgrees(msgs, (m: Message) => InConversation(m, a, b), (m: Message) => InConversation(m, b, a));
  }

  /** A message to oneself is part of every conversation its author opens. */
  lemma SelfMessagesShown(msgs: seq<Message>, m: Message, me: nat, other: nat)
    requires m in msgs && m.sender == me && m.receiver == me && !m.isDeleted
    ensures m in Conversation(msgs, me, other)
  {
  }

  /** Message ids are distinct within the table. */
  predicate DistinctMessageIds(msgs: seq<Message>)
  {
    forall j, k :: 0 <= j < k < |msgs| ==> msgs[j].id != msgs[k].id
  }

  /** After a soft delete the message is gone from every conversation, while every
      other message is shown exactly where it was shown before. */
  lemma SoftDeleteHides(msgs: seq<Message>, i: nat, me: nat, other: nat, m: Message)
    requires DistinctMessageIds(msgs) && i < |msgs|
    ensures var after := msgs[i := msgs[i].(isDeleted := true)];
      (forall x :: x in Conversation(after, me, other) ==> x.id != msgs[i].id) &&
      (m in msgs && m.id != msgs[i].id ==> (m in Conversation(after, me, other) <==> m in Conversation(msgs, me, other)))
  {
    var after := msgs[i := msgs[i].(isDeleted := true)];
    forall x | x in Conversation(after, me, other)
      ensures x.id != msgs[i].id
    {
      var k :| 0 <= k < |after| && after[k] == x;
      if k != i {
        assert msgs[k] == x;
      }
    }
    if m in msgs && m.id != msgs[i].id {
      var k :| 0 <= k < |msgs| && msgs[k] == m;
      assert k != i && after[k] == m;
      if m in after {
        var k' :| 0 <= k' < |after| && after[k'] == m;
        assert k' != i;
      }
    }
  }

  /** The message box's contacts: users with the chosen role except oneself, none
      when no role is chosen. */
  function Contacts(accounts: seq<Account>, role: Option<string>, me: nat): (r: seq<Account>)
    ensures forall a :: a in r <==> !Falsy(role) && a in accounts && a.role == role.value && a.id != me
  {
    if Falsy(role) then [] else Filter(accounts, (a: Account) => a.role == role.value && a.id != me)
  }

  // ---------------------------------------------------------------- videos

  /** The view_exercise_videos filter: active, and matching each non-empty filter exactly. */
  predicate Listed(v: ExerciseVideo, exerciseType: string, difficulty: string)
  {
    v.isActive && (exerciseType == "" || v.exerciseType == exerciseType) &&
    (difficulty == "" || v.difficultyLevel == difficulty)
  }

  /** order_by('-created_at'). */
  function NewestFirst(vs: seq<ExerciseVideo>): (r: seq<ExerciseVideo>)
    ensures multiset(r) == multiset(vs)
    ensures forall v :: v in r <==> v in vs
    ensures forall i, j :: 0 <= i < j < |r| ==> r[i].createdAt >= r[j].createdAt
  {
    var r := SortBy(vs, (v: ExerciseVideo) => -v.createdAt);
    assert SortedBy(r, (v: ExerciseVideo) => -v.createdAt);
    r
  }

  /** The videos view_exercise_videos lists, newest first. */
  function ListVideos(vs: seq<ExerciseVideo>, exerciseType: string, difficulty: string): (r: seq<ExerciseVideo>)
    ensures forall v :: v in r <==> v in vs && Listed(v, exerciseType, difficulty)
    ensures forall v :: multiset(r)[v] == if Listed(v, exerciseType, difficulty) then multiset(vs)[v] else 0
    ensures forall i, j :: 0 <= i < j < |r| ==> r[i].createdAt >= r[j].createdAt
  {
    var active := Filter(vs, (v: ExerciseVideo) => v.isActive);
    var typed := if exerciseType != "" then Filter(active, (v: ExerciseVideo) => v.exerciseType == exerciseType) else active;
    var graded := if difficulty != "" then Filter(typed, (v: ExerciseVideo) => v.difficultyLevel == difficulty) else typed;
    NewestFirst(graded)
  }

  /** Empty filter strings impose nothing: every active video is listed. */
  lemma UnfilteredListing(vs: seq<ExerciseVideo>, v: ExerciseVideo)
    ensures v in ListVideos(vs, "", "") <==> v in vs && v.isActive
  {
  }

  /** The related-video filter of watch_video. */
  predicate RelatedTo(v: ExerciseVideo, exerciseType: string, watchedId: nat)
  {
    v.isActive && v.exerciseType == exerciseType && v.id != watchedId
  }

  function RelatedCandidates(vs: seq<ExerciseVideo>, exerciseType: string, watchedId: nat): (r: seq<ExerciseVideo>)
    ensures forall v :: v in r <==> v in vs && RelatedTo(v, exerciseType, watchedId)
    ensures forall v :: multiset(r)[v] == if RelatedTo(v, exerciseType, watchedId) then multiset(vs)[v] else 0
    ensures forall i, j :: 0 <= i < j < |r| ==> r[i].createdAt >= r[j].createdAt
  {
    NewestFirst(Filter(vs, (v: ExerciseVideo) => RelatedTo(v, exerciseType, watchedId)))
  }

  /** The at most five newest active videos of the watched video's type, other than it. */
  function RelatedVideos(vs: seq<ExerciseVideo>, exerciseType: string, watchedId: nat): (r: seq<ExerciseVideo>)
    ensures |r| <= 5
    ensures forall v :: v in r ==> v in vs && RelatedTo(v, exerciseType, watchedId)
    ensures forall i, j :: 0 <= i < j < |r| ==> r[i].createdAt >= r[j].createdAt
  {
    var c := RelatedCandidates(vs, exerciseType, watchedId);
    var r := Take(c, 5);
    assert forall v :: v in r ==> v in c;
    r
  }

  /** A related video left out of the strip is no newer than any shown, and the strip is full. */
  lemma RelatedVideosNewest(vs: seq<ExerciseVideo>, exerciseType: string, watchedId: nat, x: ExerciseVideo)
    requires x in vs && RelatedTo(x, exerciseType, watchedId)
    ensures x !in RelatedVideos(vs, exerciseType, watchedId) ==>
              |RelatedVideos(vs, exerciseType, watchedId)| == 5 &&
              forall v :: v in RelatedVideos(vs, exerciseType, watchedId) ==> v.createdAt >= x.createdAt
  {
    var c := RelatedCandidates(vs, exerciseType, watchedId);
    var r := RelatedVideos(vs, exerciseType, watchedId);
    if x in r { return; }
    assert x in c;
    var k :| 0 <= k < |c| && c[k] == x;
    assert r == c[..5];
    assert k >= 5;
    forall v | v in r
      ensures v.createdAt >= x.createdAt
    {
      var j :| 0 <= j < 5 && r[j] == v;
      assert c[j] == v;
    }
  }

  // ---------------------------------------------------------------- hospitals

  /** One row of `values('id', 'name')`. */
  datatype HospitalOption = HospitalOption(id: nat, name: string)

  function Options(hs: seq<Hospital>): (r: seq<HospitalOption>)
    ensures |r| == |hs| && forall i :: 0 <= i < |hs| ==> r[i] == HospitalOption(hs[i].id, hs[i].name)
  {
    seq(|hs|, i requires 0 <= i < |hs| => HospitalOption(hs[i].id, hs[i].name))
  }

  /** Each option names a listed hospital, and each listed hospital has its option. */
  lemma OptionsListHospitals(hs: seq<Hospital>, h: Hospital, o: HospitalOption)
    ensures h in hs ==> HospitalOption(h.id, h.name) in Options(hs)
    ensures o in Options(hs) ==> exists k :: 0 <= k < |hs| && o == HospitalOption(hs[k].id, hs[k].name)
  {
    var r := Options(hs);
    if h in hs {
      var k :| 0 <= k < |hs| && hs[k] == h;
      assert r[k] == HospitalOption(h.id, h.name);
    }
  }

  /** load_hospitals: the id and name of each hospital at the requested location,
      which are exactly the appointment form's candidates. A missing parameter selects
      none (location_id IS NULL); one that is not an integer makes the query raise
      ValueError, where the form falls back to no candidates. */
  function LoadHospitals(hs: seq<Hospital>, location: Option<string>): (r: Result<seq<HospitalOption>, string>)
    ensures location.None? ==> r == Ok([])
    ensures location.Some? ==> (r.Err? <==> ParseInt(location.value).None?)
    ensures r.Ok? ==> r.value == Options(HospitalCandidates(hs, location))
    ensures r.Err? ==> HospitalCandidates(hs, location) == []
  {
    match location
    case None => Ok([])
    case Some(raw) =>
      match ParseInt(raw)
      case None => Err("ValueError")
      case Some(id) => Ok(Options(HospitalsAt(hs, id)))
  }

  // ---------------------------------------------------------------- profile

  /** MOOD_COLOR_MAP (views.py:147-154 and 791-798). */
  const MOOD_COLORS: seq<(string, string)> := [
    ("happy", "#4caf50"),
    ("neutral", "#9e9e9e"),
    ("sad", "#f44336"),
    ("anxious", "#3f51b5"),
    ("excited", "#ff9800"),
    ("tired", "#795548")
  ]

  const DEFAULT_MOOD_COLOR: string := "#2196f3"

  /** The profile's colour for the latest logged mood, if there is one. */
  function MoodColor(latestMood: Option<string>): (c: string)
    ensures latestMood.None? ==> c == DEFAULT_MOOD_COLOR
    ensures latestMood.Some? && !IsChoice(MOOD_COLORS, latestMood.value) ==> c == DEFAULT_MOOD_COLOR
    ensures forall i :: 0 <= i < |MOOD_COLORS| && latestMood == Some(MOOD_COLORS[i].0) ==> c == MOOD_COLORS[i].1
  {
    assert DistinctKeys(MOOD_COLORS);
    if latestMood.Some? then DictGet(MOOD_COLORS, latestMood.value, DEFAULT_MOOD_COLOR) else DEFAULT_MOOD_COLOR
  }

  /** views.calculate_age on the given today's date. */
  function CalculateAge(dob: Date, today: Date): (age: int)
    ensures BirthdayReached(dob, today, age) && !BirthdayReached(dob, today, age + 1)
    ensures DateLe(dob, today) ==> age >= 0
  {
    AgeCountsBirthdays(dob, today, AgeOn(dob, today));
    today.year - dob.year - (if MonthDayBefore(today, dob) then 1 else 0)
  }

  /** patient_profile's age (calculate_age when a birth date is stored) is User.get_age. */
  lemma ProfileAgeIsGetAge(u: User, today: Date)
    ensures u.GetAge(today) == (if u.dateOfBirth.Some? then Some(CalculateAge(u.dateOfBirth.value, today)) else None)
  {
  }
}
