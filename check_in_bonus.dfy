/**
 * The seven-day check-in grid: one cell per day with its reward and its
 * claimed, current and available flags, and the claim button for the current
 * day.
 */
module CheckInBonus {
  import opened Common

  const DAYS: nat := 7

  /** One cell; `reward` is a number of gems. */
  datatype Day = Day(day: nat, reward: int, isClaimed: bool, isCurrent: bool, isAvailable: bool)

  /** `rewards[i] || (i + 1) * 10`: a reward that is missing or 0 gets the default. */
  function RewardAt(rewards: seq<int>, i: nat): (r: int)
    ensures i < |rewards| && rewards[i] != 0 ==> r == rewards[i]
    ensures !(i < |rewards| && rewards[i] != 0) ==> r == (i + 1) * 10
    ensures r != 0
  {
    if i < |rewards| && rewards[i] != 0 then rewards[i] else (i + 1) * 10
  }

  /** `claimed[i] || false`. */
  function ClaimedAt(claimed: seq<bool>, i: nat): (c: bool)
    ensures c <==> i < |claimed| && claimed[i]
  {
    i < |claimed| && claimed[i]
  }

  /** The `days` array. */
  function Days(currentDay: int, rewards: seq<int>, claimed: seq<bool>): (days: seq<Day>)
    ensures |days| == DAYS
    ensures forall i :: 0 <= i < DAYS ==>
              days[i] == Day(i + 1, RewardAt(rewards, i), ClaimedAt(claimed, i), i == currentDay, i <= currentDay)
  {
    seq(DAYS, i requires 0 <= i < DAYS =>
      Day(i + 1, RewardAt(rewards, i), ClaimedAt(claimed, i), i == currentDay, i <= currentDay))
  }

  /**
   * The cells are days 1 to 7 in order; the available ones form a prefix; at
   * most one is current, and one is exactly when `currentDay` is in range.
   */
  lemma DaysShape(currentDay: int, rewards: seq<int>, claimed: seq<bool>)
    ensures var days := Days(currentDay, rewards, claimed);
      && (forall i :: 0 <= i < DAYS ==> days[i].day == i + 1)
      && (forall i, j :: 0 <= i <= j < DAYS && days[j].isAvailable ==> days[i].isAvailable)
      && (forall i, j :: 0 <= i < j < DAYS ==> !(days[i].isCurrent && days[j].isCurrent))
      && ((exists i :: 0 <= i < DAYS && days[i].isCurrent) <==> 0 <= currentDay < DAYS)
  {
    var days := Days(currentDay, rewards, claimed);
    if 0 <= currentDay < DAYS {
      assert days[currentDay].isCurrent;
    }
  }

  /** A cell is faded when it is neither available nor claimed. */
  function Faded(d: Day): (f: bool)
    ensures f <==> !d.isAvailable && !d.isClaimed
  {
    !d.isAvailable && !d.isClaimed
  }

  /** The raised background marks the current day while it can still be claimed. */
  function Highlighted(d: Day): (h: bool)
    ensures (d.isCurrent ==> d.isAvailable) ==> (h <==> d.isCurrent && !d.isClaimed)
    ensures h ==> d.isAvailable
  {
    d.isCurrent && !d.isClaimed && d.isAvailable
  }

  /** Exactly the current day's cell is raised, and only while it is unclaimed. */
  lemma HighlightedCell(currentDay: int, rewards: seq<int>, claimed: seq<bool>, i: nat)
    requires i < DAYS
    ensures Highlighted(Days(currentDay, rewards, claimed)[i]) <==> i == currentDay && !ClaimedAt(claimed, i)
  {
  }

  datatype ClaimButton = ClaimButton(disabled: bool, text: string)

  /**
   * The claim button: disabled, reading 'Already Claimed', exactly when the
   * current day's cell exists and is claimed; otherwise 'Claim Day n+1', with
   * an out-of-range day included.
   */
  function Button(currentDay: int, rewards: seq<int>, claimed: seq<bool>): (b: ClaimButton)
    ensures b.disabled <==> 0 <= currentDay < DAYS && ClaimedAt(claimed, currentDay)
    ensures b.disabled ==> b.text == "Already Claimed"
    ensures !b.disabled ==> b.text == "Claim Day " + IntToString(currentDay + 1)
  {
    var days := Days(currentDay, rewards, claimed);
    var isClaimed := 0 <= currentDay < |days| && days[currentDay].isClaimed;
    if isClaimed then ClaimButton(true, "Already Claimed")
    else ClaimButton(false, "Claim Day " + IntToString(currentDay + 1))
  }

  /** With nothing claimed, no available cell is faded and the button is live. */
  lemma NothingClaimed(currentDay: int, rewards: seq<int>)
    ensures !Button(currentDay, rewards, []).disabled
    ensures forall i :: 0 <= i < DAYS ==>
              (Faded(Days(currentDay, rewards, [])[i]) <==> i > currentDay)
  {
  }
}
