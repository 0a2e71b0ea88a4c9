/** What the home screen and the moment card make of a freshly created
    moment: how the record the create action saves is displayed and counted. */
module NewMomentDisplay {
  import opened Records
  import opened Decimal
  import CreateScreen
  import MomentCard
  import HomeScreen

  /** A new moment always has the creator in front, so its card names the
      creator when no one was added and counts everyone otherwise. */
  lemma NewMomentParticipantsText(f: CreateScreen.Form, user: User, now: int)
    ensures var text := MomentCard.ParticipantsText(CreateScreen.NewMoment(f, user, now));
            if f.participants == [] then text == "With " + user.name
            else text == "With " + NatToString(|f.participants| + 1) + " Friends"
  {
  }

  /** A challenge created with the default end date counts down from 7 days
      when shown at creation time, and is an active, in-progress moment. */
  lemma NewChallengeCountsDownAWeek(f: CreateScreen.Form, user: User, now: int)
    requires f.isChallenge && f.endDate == CreateScreen.DefaultEndDate(now)
    ensures var m := CreateScreen.NewMoment(f, user, now);
            && MomentCard.TimeTextOf(m, now) == MomentCard.Text("7 days remaining")
            && MomentCard.BadgeOf(m) == MomentCard.InProgressBadge
            && HomeScreen.IsActive(m)
  {
    assert MomentCard.DaysRemaining(f.endDate, now) == 7;
    assert IntToString(7) == "7";
    assert IntToString(7) + MomentCard.CountdownSuffix == "7 days remaining";
    assert MomentCard.CountdownText(7) == "7 days remaining";
  }

  /** Whether challenge or not, a new moment is counted as active and
      never as completed or minted. */
  lemma NewMomentIsActive(f: CreateScreen.Form, user: User, now: int)
    ensures var m := CreateScreen.NewMoment(f, user, now);
            HomeScreen.IsActive(m) && !HomeScreen.IsCompleted(m) && !HomeScreen.IsMinted(m)
  {
  }
}
