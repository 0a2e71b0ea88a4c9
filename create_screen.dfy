/** The create screen: the form state, the participant and photo list edits,
    and the create action, which validates, optionally gates on biometrics,
    assembles the moment record and hands it to the save operation once.
    Visible side effects (alerts, loading changes, the verification and
    save calls) are recorded in order in `effects`. */
module CreateScreen {
  import opened Records
  import opened Decimal
  import opened Seqs
  import AuthContext

  /** An image picked from the library or taken with the camera. */
  datatype Asset = Asset(uri: string)

  /** What an image picker resolves with. */
  datatype PickerResult = PickerResult(didCancel: bool, assets: Option<seq<Asset>>)

  /** The values of the form's state hooks that go into a new moment. */
  datatype Form = Form(
    title: string,
    description: string,
    kind: string,
    date: int,
    endDate: int,
    location: Option<Place>,
    participants: seq<Participant>,
    photos: seq<string>,
    isChallenge: bool,
    requireVerification: bool)

  datatype AlertKind = MissingTitle | VerificationRequired | MomentCreated | CreateFailed

  datatype Effect =
    | VerifyIdentity          // the call to verifyBiometrics
    | SetLoading(on: bool)
    | SaveMoment(m: Moment)   // the one call to saveMoment
    | ShowAlert(kind: AlertKind)

  datatype Outcome =
    | Rejected                // empty title
    | VerificationFailed      // verification required and refused
    | NoSession               // no signed-in user: reading user.id throws
    | Saved
    | SaveFailed

  /** The end date the form starts with: one week after opening the screen. */
  function DefaultEndDate(now: int): (endDate: int)
    ensures endDate - now == 604800000 == 7 * DayMs
  {
    now + 7 * 24 * 60 * 60 * 1000
  }

  /** The placeholder participant addParticipant appends when `count`
      participants are already listed: its name and its email carry the same
      number, count + 1. */
  function NewFriend(count: nat, now: int): (p: Participant)
    ensures p.id == "temp-" + IntToString(now)
    ensures |p.name| > 7 && p.name[..7] == "Friend "
    ensures |p.email| > 18 && p.email[..6] == "friend" && p.email[|p.email| - 12..] == "@example.com"
    ensures p.name[7..] == p.email[6..|p.email| - 12] == NatToString(count + 1)
  {
    Participant("temp-" + IntToString(now), "Friend " + NatToString(count + 1),
                "friend" + NatToString(count + 1) + "@example.com")
  }

  function ParticipantsAfterAdd(participants: seq<Participant>, now: int): (r: seq<Participant>)
    ensures |r| == |participants| + 1
    ensures r[..|participants|] == participants
    ensures r[|participants|].id == "temp-" + IntToString(now)
    ensures r[|participants|].name == "Friend " + NatToString(|participants| + 1)
    ensures r[|participants|].email == "friend" + NatToString(|participants| + 1) + "@example.com"
  {
    participants + [NewFriend(|participants|, now)]
  }

  /** The test `p => p.id !== id`. */
  function OtherThan(id: string): Participant -> bool
  {
    (p: Participant) => p.id != id
  }

  function ParticipantsAfterRemove(participants: seq<Participant>, id: string): (r: seq<Participant>)
    ensures forall p :: p in r <==> p in participants && p.id != id
    ensures IsSubsequence(r, participants)
    ensures forall p :: multiset(r)[p] == (if p.id != id then multiset(participants)[p] else 0)
  {
    Filter(participants, OtherThan(id))
  }

  /** `result.assets.map(asset => asset.uri)`. */
  function Uris(assets: seq<Asset>): (uris: seq<string>)
    ensures |uris| == |assets|
    ensures forall i :: 0 <= i < |assets| ==> uris[i] == assets[i].uri
  {
    seq(|assets|, i requires 0 <= i < |assets| => assets[i].uri)
  }

  /** `!result.didCancel && result.assets`: an empty asset list still counts. */
  predicate Delivered(result: PickerResult)
  {
    !result.didCancel && result.assets.Some?
  }

  /** The library picker replaces the photos. */
  function PhotosAfterPick(photos: seq<string>, result: PickerResult): (r: seq<string>)
    ensures !Delivered(result) ==> r == photos
    ensures Delivered(result) ==> |r| == |result.assets.value|
    ensures Delivered(result) ==> forall i :: 0 <= i < |r| ==> r[i] == result.assets.value[i].uri
  {
    if Delivered(result) then Uris(result.assets.value) else photos
  }

  /** The camera appends to the photos. */
  function PhotosAfterCamera(photos: seq<string>, result: PickerResult): (r: seq<string>)
    ensures !Delivered(result) ==> r == photos
    ensures Delivered(result) ==> |r| == |photos| + |result.assets.value|
    ensures r[..|photos|] == photos
    ensures Delivered(result) ==> forall i :: 0 <= i < |result.assets.value| ==> r[|photos| + i] == result.assets.value[i].uri
  {
    if Delivered(result) then photos + Uris(result.assets.value) else photos
  }

  /** A milestone title: the percentage followed by "% Complete". */
  function PercentTitle(percent: nat): string
  {
    NatToString(percent) + "% Complete"
  }

  /** How the four milestone percentages print. */
  lemma PercentTexts()
    ensures NatToString(25) == "25" && NatToString(50) == "50"
    ensures NatToString(75) == "75" && NatToString(100) == "100"
  {
  }

  /** The titles are the literal strings of the challenge placeholders. */
  lemma PercentTitles()
    ensures PercentTitle(25) == "25% Complete" && PercentTitle(50) == "50% Complete"
    ensures PercentTitle(75) == "75% Complete" && PercentTitle(100) == "100% Complete"
  {
    PercentTexts();
  }

  /** The four placeholder milestones of a challenge: ids 1 to 4 at 25, 50,
      75 and 100 percent, none completed. */
  function ChallengeMilestones(): (ms: seq<Milestone>)
    ensures |ms| == 4
    ensures forall i :: 0 <= i < 4 ==>
              ms[i].id == i + 1 && !ms[i].completed && ms[i].title == PercentTitle(25 * (i + 1))
  {
    [ Milestone(1, PercentTitle(25), false),
      Milestone(2, PercentTitle(50), false),
      Milestone(3, PercentTitle(75), false),
      Milestone(4, PercentTitle(100), false) ]
  }

  /** The record the create action saves for the form `f`, the signed-in
      `user` and the time `now`. */
  function NewMoment(f: Form, user: User, now: int): (m: Moment)
    ensures m.title == f.title && m.description == f.description && m.kind == f.kind
    ensures m.date == Some(f.date) && m.location == f.location && m.photos == Some(f.photos)
    ensures m.participants.Some?
    ensures var ps := m.participants.value;
            && |ps| == |f.participants| + 1
            && ps[0] == Participant(user.id, user.name, user.email)
            && ps[1..] == f.participants
    ensures m.verified == f.requireVerification && m.createdBy == user.id && m.createdAt == Some(now)
    ensures !m.nftMinted
    ensures f.isChallenge <==> m.status.Some?
    ensures f.isChallenge ==>
              && m.status == Some(InProgress)
              && m.endDate == Some(f.endDate)
              && m.progress == Some(0)
              && m.milestones == Some(ChallengeMilestones())
    ensures !f.isChallenge ==> m.endDate.None? && m.progress.None? && m.milestones.None?
  {
    var creator := Participant(user.id, user.name, user.email);
    var base := Moment(f.title, f.description, f.kind, Some(f.date), Some([creator] + f.participants),
                       f.location, Some(f.photos), f.requireVerification, user.id, Some(now),
                       None, None, None, None, false);
    if f.isChallenge then
      base.(status := Some(InProgress), endDate := Some(f.endDate), progress := Some(0),
            milestones := Some(ChallengeMilestones()))
    else base
  }

  /** The state of the create screen: one field per state hook, plus the
      effects issued so far. */
  class CreateScreenState {
    var title: string
    var description: string
    var kind: string
    var date: int
    var endDate: int
    var location: Option<Place>
    var participants: seq<Participant>
    var photos: seq<string>
    var isChallenge: bool
    var requireVerification: bool
    var loading: bool
    var effects: seq<Effect>

    function CurrentForm(): Form
      reads this
    {
      Form(title, description, kind, date, endDate, location, participants, photos,
           isChallenge, requireVerification)
    }

    /** The screen as it opens at time `now`. */
    constructor (now: int)
      ensures title == "" && description == "" && kind == "event"
      ensures date == now && endDate == DefaultEndDate(now)
      ensures location.None? && participants == [] && photos == []
      ensures !isChallenge && requireVerification && !loading
      ensures effects == []
    {
      title, description, kind := "", "", "event";
      date, endDate := now, now + 7 * 24 * 60 * 60 * 1000;
      location, participants, photos := None, [], [];
      isChallenge, requireVerification, loading := false, true, false;
      effects := [];
    }

    method AddParticipant(now: int)
      modifies this`participants
      ensures participants == ParticipantsAfterAdd(old(participants), now)
    {
      var newParticipant := NewFriend(|participants|, now);
      participants := participants + [newParticipant];
    }

    method RemoveParticipant(id: string)
      modifies this`participants
      ensures participants == ParticipantsAfterRemove(old(participants), id)
    {
      participants := Filter(participants, OtherThan(id));
    }

    method PickImage(result: PickerResult)
      modifies this`photos
      ensures photos == PhotosAfterPick(old(photos), result)
    {
      if !result.didCancel && result.assets.Some? {
        photos := Uris(result.assets.value);
      }
    }

    method TakePhoto(result: PickerResult)
      modifies this`photos
      ensures photos == PhotosAfterCamera(old(photos), result)
    {
      if !result.didCancel && result.assets.Some? {
        photos := photos + Uris(result.assets.value);
      }
    }

    /** The record-building step of the create action: the record is built
        from the form and, for a challenge, extended field by field. */
    method AssembleMoment(user: User, now: int) returns (newMoment: Moment)
      ensures newMoment == NewMoment(CurrentForm(), user, now)
    {
      newMoment := Moment(title, description, kind, Some(date),
                          Some([Participant(user.id, user.name, user.email)] + participants),
                          location, Some(photos), requireVerification, user.id, Some(now),
                          None, None, None, None, false);
      if isChallenge {
        newMoment := newMoment.(status := Some(InProgress));
        newMoment := newMoment.(endDate := Some(endDate));
        newMoment := newMoment.(progress := Some(0));
        newMoment := newMoment.(milestones := Some(ChallengeMilestones()));
      }
    }

    /** handleCreateMoment. `sensorAvailable` and `promptSucceeds` are what
        the biometric sensor reports, `saveSucceeds` what saveMoment
        resolves with. */
    method HandleCreateMoment(user: Option<User>, sensorAvailable: bool, promptSucceeds: bool,
                              saveSucceeds: bool, now: int) returns (outcome: Outcome)
      modifies this`loading, this`effects
      ensures title == "" ==>
                outcome == Rejected && effects == old(effects) + [ShowAlert(MissingTitle)]
      ensures title != "" && requireVerification && !AuthContext.VerifyBiometrics(sensorAvailable, promptSucceeds) ==>
                && outcome == VerificationFailed
                && effects == old(effects) + [VerifyIdentity, ShowAlert(VerificationRequired)]
      ensures outcome == Rejected || outcome == VerificationFailed ==> loading == old(loading)
      ensures title != "" && (!requireVerification || AuthContext.VerifyBiometrics(sensorAvailable, promptSucceeds)) ==>
                var checked := old(effects) + (if requireVerification then [VerifyIdentity] else []);
                if user.None? then
                  outcome == NoSession && loading && effects == checked + [SetLoading(true)]
                else
                  && outcome == (if saveSucceeds then Saved else SaveFailed)
                  && !loading
                  && effects == checked + [SetLoading(true), SaveMoment(NewMoment(CurrentForm(), user.value, now)),
                                           SetLoading(false), ShowAlert(if saveSucceeds then MomentCreated else CreateFailed)]
    {
      if title == "" {
        effects := effects + [ShowAlert(MissingTitle)];
        return Rejected;
      }
      if requireVerification {
        effects := effects + [VerifyIdentity];
        var verified := AuthContext.VerifyBiometrics(sensorAvailable, promptSucceeds);
        if !verified {
          effects := effects + [ShowAlert(VerificationRequired)];
          return VerificationFailed;
        }
      }
      ghost var checked := effects;
      assert checked == old(effects) + (if requireVerification then [VerifyIdentity] else []);
      loading := true;
      effects := effects + [SetLoading(true)];
      if user.None? {
        return NoSession;
      }
      var newMoment := AssembleMoment(user.value, now);
      effects := effects + [SaveMoment(newMoment)];
      loading := false;
      effects := effects + [SetLoading(false)];
      var alert := if saveSucceeds then MomentCreated else CreateFailed;
      effects := effects + [ShowAlert(alert)];
      outcome := if saveSucceeds then Saved else SaveFailed;
      assert effects == checked + [SetLoading(true), SaveMoment(newMoment), SetLoading(false), ShowAlert(alert)];
    }
  }

  /** The new friend is numbered by its place in the list: the number in its
      name and the number in its email both read back as the new list length. */
  lemma NewFriendNumberedByPosition(participants: seq<Participant>, now: int)
    ensures var r := ParticipantsAfterAdd(participants, now);
            var p := r[|participants|];
            && |p.name| > 7 && p.name[..7] == "Friend " && IsDigits(p.name[7..])
            && DigitsValue(p.name[7..]) == |r|
            && |p.email| > 18 && p.email[..6] == "friend" && p.email[|p.email| - 12..] == "@example.com"
            && IsDigits(p.email[6..|p.email| - 12]) && DigitsValue(p.email[6..|p.email| - 12]) == |r|
  {
    var p := NewFriend(|participants|, now);
    assert p.name[7..] == p.email[6..|p.email| - 12] == NatToString(|participants| + 1);
    NatToStringRoundTrip(|participants| + 1);
  }

  /** Removing twice by the same id is removing once. */
  lemma RemoveParticipantIdempotent(participants: seq<Participant>, id: string)
    ensures ParticipantsAfterRemove(ParticipantsAfterRemove(participants, id), id)
            == ParticipantsAfterRemove(participants, id)
  {
    FilterIdempotent(participants, OtherThan(id));
  }

  /** Removing an id nobody has changes nothing. */
  lemma RemoveAbsentParticipant(participants: seq<Participant>, id: string)
    requires forall p :: p in participants ==> p.id != id
    ensures ParticipantsAfterRemove(participants, id) == participants
  {
    FilterAllPass(participants, OtherThan(id));
  }

  /** Removing the participant just added, by its id, gives what removing
      that id from the old list gives: the old list when no one had it. */
  lemma RemoveUndoesAdd(participants: seq<Participant>, now: int)
    ensures var id := "temp-" + IntToString(now);
            ParticipantsAfterRemove(ParticipantsAfterAdd(participants, now), id)
            == ParticipantsAfterRemove(participants, id)
  {
    var id := "temp-" + IntToString(now);
    FilterAppend(participants, [NewFriend(|participants|, now)], OtherThan(id));
    assert Filter([NewFriend(|participants|, now)], OtherThan(id)) == [];
  }
}
