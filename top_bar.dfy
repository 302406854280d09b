/**
 * The application bar's notification list: socket events prepend entries to a
 * list kept at most 30 long, an unread counter counts arrivals, and the
 * dropdown dismisses, clears and resolves invites.
 *
 * The socket and the invite API are left out; their results arrive as
 * parameters (`data` of a load, `succeeded` of an accept or decline call).
 */
module TopBar {
  import opened Common
  import opened FeedText

  const MAX_NOTIFICATIONS: nat := 30

  /** A project invitation as the invite API returns it. */
  datatype Invite = Invite(
    id: string,
    status: string,
    inviterName: Option<string>,
    projectName: Option<string>,
    createdAt: Option<int>)

  predicate IsPending(inv: Invite)
  {
    inv.status == "pending"
  }

  /** The notification a pending invite adds, with id `invite-<id>`. */
  function InviteNotice(inv: Invite, now: int): (n: Notice)
    ensures n.id == Named("invite-" + inv.id) && n.inviteId == Some(inv.id) && n.kind == "invite"
    ensures n.detail == StringOr(inv.inviterName, "Someone") + " invited you to "
                        + StringOr(inv.projectName, "a project")
    ensures n.time == (if inv.createdAt.Some? then inv.createdAt else Some(now))
  {
    Notice(Named("invite-" + inv.id), "invite", "Project invite",
           StringOr(inv.inviterName, "Someone") + " invited you to " + StringOr(inv.projectName, "a project"),
           if inv.createdAt.Some? then inv.createdAt else Some(now),
           Some(inv.id))
  }

  /**
   * The entries that adding one notice per invite of `ps`, in order, puts in
   * front of the list: the last invite ends up first.
   */
  function InviteNotices(ps: seq<Invite>, now: int): (r: seq<Notice>)
    ensures |r| == |ps|
    ensures forall j :: 0 <= j < |ps| ==> r[j] == InviteNotice(ps[|ps| - 1 - j], now)
  {
    if ps == [] then [] else [InviteNotice(ps[|ps| - 1], now)] + InviteNotices(ps[..|ps| - 1], now)
  }

  /** The list after `dismiss(id)`. */
  function Dismissed(ns: seq<Notice>, id: NoticeId): (r: seq<Notice>)
    ensures forall i :: 0 <= i < |r| ==> r[i].id != id && r[i] in ns
    ensures forall n :: n in ns && n.id != id ==> n in r
    ensures (forall n :: n in ns ==> n.id != id) ==> r == ns
  {
    Filter(ns, (n: Notice) => n.id != id)
  }

  /** The list after an invite is accepted or declined: its notices go. */
  function WithoutInvite(ns: seq<Notice>, inviteId: string): (r: seq<Notice>)
    ensures forall i :: 0 <= i < |r| ==> r[i].inviteId != Some(inviteId) && r[i] in ns
    ensures forall n :: n in ns && n.inviteId != Some(inviteId) ==> n in r
  {
    Filter(ns, (n: Notice) => n.inviteId != Some(inviteId))
  }

  /** Dismissal keeps the survivors of each part of the list in their order. */
  lemma DismissedKeepsOrder(a: seq<Notice>, b: seq<Notice>, id: NoticeId)
    ensures Dismissed(a + b, id) == Dismissed(a, id) + Dismissed(b, id)
  {
    FilterConcat(a, b, (n: Notice) => n.id != id);
  }

  /** Dismissing the same id twice is dismissing it once. */
  lemma DismissIdempotent(ns: seq<Notice>, id: NoticeId)
    ensures Dismissed(Dismissed(ns, id), id) == Dismissed(ns, id)
  {
    FilterIdempotent(ns, (n: Notice) => n.id != id);
  }

  /** Prepending to a list already cut to `n` and cutting again is one cut. */
  lemma TakeAfterPrepend<T>(x: T, s: seq<T>, n: nat)
    ensures Take([x] + Take(s, n), n) == Take([x] + s, n)
  {
  }

  /** One more invite notice, added to the list the previous ones left. */
  lemma InviteNoticesStep(ps: seq<Invite>, i: nat, now: int, before: seq<Notice>)
    requires i < |ps|
    ensures Take([InviteNotice(ps[i], now)] + Take(InviteNotices(ps[..i], now) + before, MAX_NOTIFICATIONS),
                 MAX_NOTIFICATIONS)
            == Take(InviteNotices(ps[..i + 1], now) + before, MAX_NOTIFICATIONS)
  {
    var n := InviteNotice(ps[i], now);
    TakeAfterPrepend(n, InviteNotices(ps[..i], now) + before, MAX_NOTIFICATIONS);
    assert ps[..i + 1][..i] == ps[..i];
    assert InviteNotices(ps[..i + 1], now) == [n] + InviteNotices(ps[..i], now);
    assert [n] + (InviteNotices(ps[..i], now) + before) == InviteNotices(ps[..i + 1], now) + before;
  }

  /** The bar's state: the list, the unread counter, the pending invites and the dropdown. */
  class TopBarModel {
    var notifications: seq<Notice>
    var unread: nat
    var invites: seq<Invite>
    var showPanel: bool

    ghost predicate Valid()
      reads this
    {
      |notifications| <= MAX_NOTIFICATIONS
    }

    constructor ()
      ensures Valid() && notifications == [] && unread == 0 && invites == [] && !showPanel
    {
      notifications := [];
      unread := 0;
      invites := [];
      showPanel := false;
    }

    /**
     * `addNotification`: the new entry goes first, the oldest beyond 30 drop
     * off, and unread counts the arrival even when an entry dropped.
     */
    method AddNotification(n: Notice)
      requires Valid()
      modifies this
      ensures Valid() && notifications == Take([n] + old(notifications), MAX_NOTIFICATIONS)
      ensures notifications[0] == n
      ensures forall i :: 0 <= i < |old(notifications)| && i + 1 < MAX_NOTIFICATIONS ==>
                notifications[i + 1] == old(notifications)[i]
      ensures unread == old(unread) + 1
      ensures invites == old(invites) && showPanel == old(showPanel)
    {
      notifications := Take([n] + notifications, MAX_NOTIFICATIONS);
      unread := unread + 1;
    }

    /** `dismiss`: every entry with this id goes; unread stays. */
    method Dismiss(id: NoticeId)
      requires Valid()
      modifies this
      ensures Valid() && notifications == Dismissed(old(notifications), id)
      ensures unread == old(unread) && invites == old(invites) && showPanel == old(showPanel)
    {
      notifications := Dismissed(notifications, id);
    }

    /** `clearAll`: empties the list and the counter. */
    method ClearAll()
      requires Valid()
      modifies this
      ensures Valid() && notifications == [] && unread == 0
      ensures invites == old(invites) && showPanel == old(showPanel)
    {
      notifications := [];
      unread := 0;
    }

    /** `openPanel`: the bell opens the dropdown and marks everything read. */
    method OpenPanel()
      requires Valid()
      modifies this
      ensures Valid() && showPanel && unread == 0
      ensures notifications == old(notifications) && invites == old(invites)
    {
      showPanel := true;
      unread := 0;
    }

    /** A document mousedown: outside the bell and dropdown it closes the dropdown. */
    method DocumentMouseDown(insidePanel: bool)
      requires Valid()
      modifies this
      ensures Valid() && showPanel == (old(showPanel) && insidePanel)
      ensures notifications == old(notifications) && unread == old(unread) && invites == old(invites)
    {
      if showPanel && !insidePanel {
        showPanel := false;
      }
    }

    /**
     * `handleAcceptInvite` and `handleDeclineInvite`: once the call succeeds
     * the invite and every notice for it go; a failed call changes nothing.
     */
    method RespondToInvite(inviteId: string, succeeded: bool)
      requires Valid()
      modifies this
      ensures Valid() && unread == old(unread) && showPanel == old(showPanel)
      ensures !succeeded ==> notifications == old(notifications) && invites == old(invites)
      ensures succeeded ==> notifications == WithoutInvite(old(notifications), inviteId)
      ensures succeeded ==> invites == Filter(old(invites), (i: Invite) => i.id != inviteId)
    {
      if !succeeded {
        return;
      }
      invites := Filter(invites, (i: Invite) => i.id != inviteId);
      notifications := WithoutInvite(notifications, inviteId);
    }

    /**
     * The invite load: a non-array response changes nothing; otherwise only
     * the pending invites are kept and each one is added as a notification.
     */
    method LoadInvites(data: Option<seq<Invite>>, now: int)
      requires Valid()
      modifies this
      ensures Valid() && showPanel == old(showPanel)
      ensures data.None? ==> notifications == old(notifications) && unread == old(unread)
                             && invites == old(invites)
      ensures data.Some? ==> invites == Filter(data.value, IsPending)
      ensures data.Some? ==>
                notifications == Take(InviteNotices(invites, now) + old(notifications), MAX_NOTIFICATIONS)
      ensures data.Some? ==> unread == old(unread) + |invites|
    {
      if data.None? {
        return;
      }
      var pending := Filter(data.value, IsPending);
      invites := pending;
      AddInviteNotices(pending, now);
    }

    /** The `forEach` over the pending invites: one notification each, in order. */
    method AddInviteNotices(pending: seq<Invite>, now: int)
      requires Valid()
      modifies this
      ensures Valid() && invites == old(invites) && showPanel == old(showPanel)
      ensures notifications == Take(InviteNotices(pending, now) + old(notifications), MAX_NOTIFICATIONS)
      ensures unread == old(unread) + |pending|
    {
      ghost var before := notifications;
      var i := 0;
      while i < |pending|
        invariant 0 <= i <= |pending| && Valid()
        invariant invites == old(invites) && showPanel == old(showPanel)
        invariant notifications == Take(InviteNotices(pending[..i], now) + before, MAX_NOTIFICATIONS)
        invariant unread == old(unread) + i
      {
        InviteNoticesStep(pending, i, now, before);
        AddNotification(InviteNotice(pending[i], now));
        i := i + 1;
      }
      assert pending[..i] == pending;
    }
  }

  /**
   * `k` arrivals on a fresh bar: unread reaches `k` while the list stops at
   * 30, so the badge can count entries the list no longer holds.
   */
  method ArrivalsOutgrowList(k: nat) returns (unread: nat, shown: nat)
    ensures unread == k
    ensures shown == (if k <= MAX_NOTIFICATIONS then k else MAX_NOTIFICATIONS)
  {
    var bar := new TopBarModel();
    var i := 0;
    while i < k
      invariant 0 <= i <= k && bar.Valid()
      invariant bar.unread == i
      invariant |bar.notifications| == (if i <= MAX_NOTIFICATIONS then i else MAX_NOTIFICATIONS)
    {
      bar.AddNotification(Notice(Stamp(i), "task", "Task done", "", Some(i), None));
      i := i + 1;
    }
    unread, shown := bar.unread, |bar.notifications|;
  }
}
