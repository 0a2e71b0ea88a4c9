/** The summary card for one moment: a pure function of the moment and the
    current time. Date-library formatting (relative distance and locale date)
    is kept as tagged outputs carrying the date they would format. */
module MomentCard {
  import opened Records
  import opened Decimal

  // Theme colours used by the card.
  const PrimaryColor: string := "#6c63ff"
  const WeddingColor: string := "#ffad87"
  const TripColor: string := "#64d2ff"
  const ChallengeColor: string := "#a5ed7b"

  /** Dates younger than this are shown relative to now: 14 days in ms. */
  const RelativeWindowMs: int := 14 * DayMs

  const CountdownSuffix: string := " days remaining"

  datatype TimeText =
    | Text(s: string)            // a literal string
    | RelativeTo(date: int)      // formatDistanceToNow(date, { addSuffix: true })
    | LocaleDate(date: int)      // date.toLocaleDateString()

  datatype Badge = NftBadge | InProgressBadge | NoBadge

  datatype Card = Card(
    color: string,
    image: Option<string>,
    title: string,
    participantsText: string,
    timeText: TimeText,
    badge: Badge)

  /** The image area's background colour for a moment type. */
  function TypeColor(kind: string): (c: string)
    ensures kind == "wedding" ==> c == WeddingColor
    ensures kind == "trip" ==> c == TripColor
    ensures kind == "challenge" ==> c == ChallengeColor
    ensures c == PrimaryColor <==> kind != "wedding" && kind != "trip" && kind != "challenge"
  {
    if kind == "wedding" then WeddingColor
    else if kind == "trip" then TripColor
    else if kind == "challenge" then ChallengeColor
    else PrimaryColor
  }

  /** Whole days left until `endDate`, rounded up: Math.ceil((endDate - now) / day). */
  function DaysRemaining(endDate: int, now: int): (d: int)
    ensures (d - 1) * DayMs < endDate - now <= d * DayMs
  {
    (endDate - now + DayMs - 1) / DayMs
  }

  /** `${daysRemaining} days remaining`: the printed day count reads back. */
  function CountdownText(days: int): (s: string)
    ensures |s| > |CountdownSuffix| && s[|s| - |CountdownSuffix|..] == CountdownSuffix
    ensures ParseCountdown(s) == Some(days)
  {
    var s := IntToString(days) + CountdownSuffix;
    var n := |CountdownSuffix|;
    assert s[|s| - n..] == CountdownSuffix;
    assert s[..|s| - n] == IntToString(days);
    IntToStringRoundTrip(days);
    s
  }

  /** Reads the day count back out of a countdown text. */
  function ParseCountdown(s: string): Option<int>
  {
    var n := |CountdownSuffix|;
    if |s| >= n && s[|s| - n..] == CountdownSuffix then ParseInt(s[..|s| - n]) else None
  }

  /** The time line of the card. An in-progress moment always shows the
      countdown (`new Date(undefined)` makes it "NaN days remaining" when the
      end date is missing); otherwise a recent date is relative, an older one
      absolute, and no date gives the empty string. */
  function TimeTextOf(m: Moment, now: int): (t: TimeText)
    ensures IsInProgress(m) ==> t.Text? && |t.s| >= |CountdownSuffix|
    ensures IsInProgress(m) && m.endDate.None? ==> t == Text("NaN" + CountdownSuffix)
    ensures !IsInProgress(m) && m.date.Some? ==>
              && (t.RelativeTo? || t.LocaleDate?)
              && t.date == m.date.value
              && (t.RelativeTo? <==> now - m.date.value < RelativeWindowMs)
    ensures !IsInProgress(m) && m.date.None? ==> t == Text("")
  {
    if IsInProgress(m) then
      if m.endDate.Some? then Text(CountdownText(DaysRemaining(m.endDate.value, now)))
      else Text("NaN" + CountdownSuffix)
    else if m.date.Some? then
      if now - m.date.value < RelativeWindowMs then RelativeTo(m.date.value)
      else LocaleDate(m.date.value)
    else Text("")
  }

  /** The participants summary: empty for a missing or empty list, the one
      name for a single participant, otherwise the count and "Friends". */
  function ParticipantsText(m: Moment): (s: string)
    ensures s == "" <==> m.participants.None? || m.participants.value == []
    ensures m.participants.Some? && |m.participants.value| == 1 ==>
              s == "With " + m.participants.value[0].name
    ensures m.participants.Some? && |m.participants.value| >= 2 ==>
              s == "With " + NatToString(|m.participants.value|) + " Friends"
  {
    if m.participants.None? || |m.participants.value| == 0 then ""
    else
      var ps := m.participants.value;
      if |ps| == 1 then "With " + ps[0].name
      else "With " + NatToString(|ps|) + " " + (if |ps| == 1 then "Friend" else "Friends")
  }

  /** The NFT badge wins over the in-progress badge. */
  function BadgeOf(m: Moment): (b: Badge)
    ensures b == NftBadge <==> m.nftMinted
    ensures b == InProgressBadge <==> !m.nftMinted && IsInProgress(m)
  {
    if m.nftMinted then NftBadge
    else if IsInProgress(m) then InProgressBadge
    else NoBadge
  }

  /** The picture shown: the first photo, when there is one. */
  function CardImage(m: Moment): (uri: Option<string>)
    ensures uri.Some? <==> m.photos.Some? && |m.photos.value| > 0
    ensures uri.Some? ==> uri.value == m.photos.value[0] && uri.value in m.photos.value
  {
    if m.photos.Some? && |m.photos.value| > 0 then Some(m.photos.value[0]) else None
  }

  /** The card for a moment: each field is the rule for that part of it. */
  function CardOf(m: Moment, now: int): (c: Card)
    ensures c.title == m.title
    ensures c.color == TypeColor(m.kind) && c.image == CardImage(m)
    ensures c.participantsText == ParticipantsText(m)
    ensures c.timeText == TimeTextOf(m, now) && c.badge == BadgeOf(m)
  {
    Card(TypeColor(m.kind), CardImage(m), m.title, ParticipantsText(m), TimeTextOf(m, now), BadgeOf(m))
  }

  /** The four colours are distinct, so the colour names the type for the
      three types that have their own; every other type, `event` and
      `promise` included, shares the primary colour. */
  lemma TypeColorDistinguishes(k1: string, k2: string)
    requires k1 == "wedding" || k1 == "trip" || k1 == "challenge"
    ensures TypeColor(k1) == TypeColor(k2) <==> k1 == k2
  {
  }

  /** The countdown text of an in-progress moment with an end date reads back
      as the number of whole days left, rounded up, and is that number in its
      canonical printed form (no leading zero, no plus sign). */
  lemma CountdownRoundTrip(m: Moment, now: int)
    requires IsInProgress(m) && m.endDate.Some?
    ensures TimeTextOf(m, now).Text?
    ensures var d := ParseCountdown(TimeTextOf(m, now).s);
            && d.Some? && (d.value - 1) * DayMs < m.endDate.value - now <= d.value * DayMs
            && TimeTextOf(m, now).s == IntToString(d.value) + CountdownSuffix
  {
    var days := DaysRemaining(m.endDate.value, now);
    assert ParseCountdown(CountdownText(days)) == Some(days);
  }

  /** For an in-progress moment the date field plays no part in the time text. */
  lemma CountdownIgnoresDate(m: Moment, now: int, date: Option<int>)
    requires IsInProgress(m)
    ensures TimeTextOf(m.(date := date), now) == TimeTextOf(m, now)
  {
  }

  /** With two or more participants the count can be read back from the text. */
  lemma ParticipantCountReadable(m: Moment)
    requires m.participants.Some? && |m.participants.value| >= 2
    ensures var s := ParticipantsText(m);
            |s| > 13 && IsDigits(s[5..|s| - 8]) && DigitsValue(s[5..|s| - 8]) == |m.participants.value|
  {
    var n := |m.participants.value|;
    var s := ParticipantsText(m);
    assert s[5..|s| - 8] == NatToString(n);
    NatToStringRoundTrip(n);
  }

  /** A minted moment shows the NFT badge whatever its status. */
  lemma MintedBadgeIgnoresStatus(m: Moment, status: Option<string>)
    requires m.nftMinted
    ensures BadgeOf(m.(status := status)) == NftBadge
  {
  }
}
