/**
 * Digital Shadow access control: the rules the home-page section
 * (src/components/sections/Section3Shadow.tsx) and the standalone page
 * (src/app/shadow/page.tsx) share for which nodes a viewer sees, which of
 * them are unlocked, what a click does and what a locked card says; plus the
 * section's typed title, its pin fade and the refs its effect mutates.
 */
module ShadowAccess {
  import opened Wrappers
  import opened JsMath
  import AppsData
  import AuthStore

  /** `userRole`: the signed-in user's role, or 'guest'. */
  datatype Viewer = GuestViewer | UserViewer | AdminViewer

  function ViewerOf(u: Option<AuthStore.User>): (v: Viewer)
    ensures v.GuestViewer? <==> u.None?
    ensures v.AdminViewer? <==> u.Some? && u.value.role == AuthStore.AdminRole
  {
    match u
    case None => GuestViewer
    case Some(user) => if user.role == AuthStore.AdminRole then AdminViewer else UserViewer
  }

  /** The node only admins see, appended after the table. */
  const AdminNode := AppsData.ShadowNode(
    "admin-panel", "Admin Panel", "wrench", "Full system administration.",
    "https://staff.naskaus.com/admin", AppsData.AdminOnly, None)

  /** `visibleNodes`: the node table, plus the admin panel for an admin. */
  function VisibleNodes(v: Viewer): (ns: seq<AppsData.ShadowNode>)
    ensures AppsData.ShadowNodes <= ns
    ensures |ns| == |AppsData.ShadowNodes| + (if v.AdminViewer? then 1 else 0)
    ensures AdminNode in ns <==> v.AdminViewer?
  {
    AppsData.NodeIdsDistinct();
    if v.AdminViewer? then AppsData.ShadowNodes + [AdminNode] else AppsData.ShadowNodes
  }

  /** `isNodeUnlocked`: an admin opens everything, a user the 'user' nodes, a guest nothing. */
  predicate IsNodeUnlocked(v: Viewer, role: AppsData.NodeRole)
    ensures IsNodeUnlocked(v, role) <==> Rank(v) >= NeededRank(role)
  {
    v.AdminViewer? || (v.UserViewer? && role == AppsData.UserOnly)
  }

  /** How much a viewer may open: guest below user below admin. */
  function Rank(v: Viewer): nat
  {
    match v
    case GuestViewer => 0
    case UserViewer => 1
    case AdminViewer => 2
  }

  /** The least rank that opens a node: a user for 'user' nodes, an admin for 'admin' nodes. */
  function NeededRank(role: AppsData.NodeRole): nat
  {
    match role
    case UserOnly => 1
    case AdminOnly => 2
  }

  /** A node a viewer may open stays open for every viewer of higher rank. */
  lemma UnlockMonotone(v: Viewer, w: Viewer, role: AppsData.NodeRole)
    ensures Rank(v) <= Rank(w) && IsNodeUnlocked(v, role) ==> IsNodeUnlocked(w, role)
  {
  }

  /** The ids of the nodes of `ns` that `v` may open, in order. */
  function UnlockedIds(v: Viewer, ns: seq<AppsData.ShadowNode>): (ids: seq<string>)
    ensures |ids| <= |ns|
  {
    if ns == [] then []
    else
      var rest := UnlockedIds(v, ns[1..]);
      if IsNodeUnlocked(v, ns[0].role) then [ns[0].id] + rest else rest
  }

  /** The ids of `ns`, in order. */
  function Ids(ns: seq<AppsData.ShadowNode>): (ids: seq<string>)
    ensures |ids| == |ns| && forall i :: 0 <= i < |ns| ==> ids[i] == ns[i].id
  {
    if ns == [] then [] else [ns[0].id] + Ids(ns[1..])
  }

  /** Over any list of nodes, an admin opens all of them. */
  lemma {:induction false} AdminOpensAll(ns: seq<AppsData.ShadowNode>)
    ensures UnlockedIds(AdminViewer, ns) == Ids(ns)
  {
    if ns != [] {
      AdminOpensAll(ns[1..]);
    }
  }

  /** Over any list of nodes, a signed-in user opens exactly the 'user' nodes and a guest none. */
  lemma {:induction false} UserOpensUserNodes(ns: seq<AppsData.ShadowNode>)
    ensures UnlockedIds(UserViewer, ns) == AppsData.IdsWithRole(ns, AppsData.UserOnly)
    ensures UnlockedIds(GuestViewer, ns) == []
  {
    if ns != [] {
      UserOpensUserNodes(ns[1..]);
    }
  }

  /** The ids of the node table, in order. */
  lemma TableIds()
    ensures Ids(AppsData.ShadowNodes) == ["agency", "tasks", "party", "purchase", "workflows", "moltbot"]
  {
  }

  /** An admin opens every node of a list with the admin panel appended, the panel last. */
  lemma AdminOpensAppended(ns: seq<AppsData.ShadowNode>)
    ensures UnlockedIds(AdminViewer, ns + [AdminNode]) == Ids(ns) + ["admin-panel"]
  {
    AdminOpensAll(ns + [AdminNode]);
    assert Ids(ns + [AdminNode]) == Ids(ns) + ["admin-panel"];
  }

  /** On the page an admin opens every visible node: the table's six, then the admin panel. */
  lemma AdminUnlocksAll()
    ensures UnlockedIds(AdminViewer, VisibleNodes(AdminViewer)) == Ids(AppsData.ShadowNodes) + ["admin-panel"]
  {
    AdminOpensAppended(AppsData.ShadowNodes);
  }

  /** On the page a signed-in user opens agency, tasks and party, and a guest opens nothing. */
  lemma UserAndGuestUnlocks()
    ensures UnlockedIds(UserViewer, VisibleNodes(UserViewer)) == ["agency", "tasks", "party"]
    ensures UnlockedIds(GuestViewer, VisibleNodes(GuestViewer)) == []
  {
    UserOpensUserNodes(AppsData.ShadowNodes);
    AppsData.NodeRoles();
  }

  /** What clicking a node card does. */
  datatype Click = OpenUrl(url: string) | OpenLogin | Ignore

  /** The card's click handler: open the node's URL when unlocked, else the login modal for a guest. */
  function ClickAction(v: Viewer, n: AppsData.ShadowNode): (c: Click)
    ensures c.OpenUrl? <==> IsNodeUnlocked(v, n.role)
    ensures c.OpenUrl? ==> c.url == n.url
    ensures c == OpenLogin <==> v.GuestViewer?
  {
    if IsNodeUnlocked(v, n.role) then OpenUrl(n.url)
    else if v.GuestViewer? then OpenLogin
    else Ignore
  }

  /**
   * A guest's every click opens the login modal, an admin's every click opens
   * the node, and a signed-in user's click opens the node exactly for 'user'
   * nodes and otherwise does nothing.
   */
  lemma ClickByRole(n: AppsData.ShadowNode)
    ensures ClickAction(GuestViewer, n) == OpenLogin
    ensures ClickAction(AdminViewer, n) == OpenUrl(n.url)
    ensures ClickAction(UserViewer, n) == (if n.role == AppsData.UserOnly then OpenUrl(n.url) else Ignore)
  {
  }

  /** The veil over a locked card: its label and whether clicking it opens the login modal. */
  datatype Veil = Veil(caption: Option<string>, opensLogin: bool)

  /** One rendered card. */
  datatype Card = Card(node: AppsData.ShadowNode, unlocked: bool, veil: Option<Veil>)

  /** The veil's label: "LOGIN TO ACCESS" for a guest, "ADMIN ONLY" for a user. */
  function VeilLabel(v: Viewer): Option<string>
  {
    match v
    case GuestViewer => Some("LOGIN TO ACCESS")
    case UserViewer => Some("ADMIN ONLY")
    case AdminViewer => None
  }

  /** The card `visibleNodes.map` renders for `n`: a locked card is veiled. */
  function CardFor(v: Viewer, n: AppsData.ShadowNode): (c: Card)
    ensures c.node == n
  {
    var unlocked := IsNodeUnlocked(v, n.role);
    Card(n, unlocked, if unlocked then None else Some(Veil(VeilLabel(v), v.GuestViewer?)))
  }

  /** The grid for a viewer. */
  function Cards(v: Viewer): (cs: seq<Card>)
    ensures |cs| == |VisibleNodes(v)| && forall i :: 0 <= i < |cs| ==> cs[i] == CardFor(v, VisibleNodes(v)[i])
  {
    seq(|VisibleNodes(v)|, i requires 0 <= i < |VisibleNodes(v)| => CardFor(v, VisibleNodes(v)[i]))
  }

  /**
   * Every veiled card carries a label, and a veil's click agrees with the
   * card's own click rule: it opens the login modal exactly for a guest.
   */
  lemma VeilsAgree(v: Viewer, n: AppsData.ShadowNode)
    ensures CardFor(v, n).veil.Some? <==> !CardFor(v, n).unlocked
    ensures CardFor(v, n).veil.Some? ==> CardFor(v, n).veil.value.caption.Some?
    ensures CardFor(v, n).veil.Some? ==>
              (CardFor(v, n).veil.value.opensLogin <==> ClickAction(v, n) == OpenLogin)
  {
  }

  /** The standalone page: a blank placeholder until mounted, then the grid for the store's user. */
  function PageView(mounted: bool, user: Option<AuthStore.User>): (view: Option<seq<Card>>)
    ensures view.Some? <==> mounted
  {
    if mounted then Some(Cards(ViewerOf(user))) else None
  }

  /** Once signed out, the page shows the six table nodes, every one veiled with "LOGIN TO ACCESS". */
  lemma SignedOutPage(s: AuthStore.AuthState)
    ensures var view := PageView(true, AuthStore.AfterLogout(s).user);
            view.Some? && |view.value| == 6 &&
            forall c :: c in view.value ==> !c.unlocked && c.veil == Some(Veil(Some("LOGIN TO ACCESS"), true))
  {
  }

  /** After a login that answers with an admin, the page shows the admin panel, unlocked, last. */
  lemma AdminLoginPage(s: AuthStore.AuthState, u: AuthStore.User)
    requires u.role == AuthStore.AdminRole
    ensures var view := PageView(true, AuthStore.AfterLogin(s, AuthStore.Answered(Some(u))).user);
            view.Some? && |view.value| == 7 && view.value[6] == Card(AdminNode, true, None)
  {
  }

  /** The section's typed title. */
  const TitleText: string := "DIGITAL SHADOW"

  /** The title after `c` characters: `TITLE_TEXT.slice(0, c)`, then '_' while unfinished. */
  function TitleAt(c: nat): (t: string)
    ensures c < |TitleText| ==> |t| == c + 1 && t[..c] == TitleText[..c] && t[c] == '_'
    ensures c >= |TitleText| ==> t == TitleText
  {
    var k := if c < |TitleText| then c else |TitleText|;
    TitleText[..k] + (if c < |TitleText| then "_" else "")
  }

  /**
   * The cursor shows exactly while the title is unfinished, the text before it
   * is the title's first `c` characters, and each step types one more.
   */
  lemma TitleProgress(c: nat)
    ensures '_' in TitleAt(c) <==> c < |TitleText|
    ensures c < |TitleText| ==> TitleAt(c)[..c] == TitleText[..c] && |TitleAt(c)| == c + 1
    ensures c >= |TitleText| ==> TitleAt(c) == TitleText
    ensures c < |TitleText| ==> TitleAt(c + 1)[..c + 1] == TitleAt(c)[..c] + [TitleText[c]]
  {
    assert forall i :: 0 <= i < |TitleText| ==> TitleText[i] != '_';
    if c < |TitleText| {
      assert TitleAt(c)[c] == '_';
    } else {
      assert TitleAt(c) == TitleText;
    }
  }

  /** The title `onUpdate` writes when the tween's counter is at `chars`, between 0 and 14. */
  function TitleFrame(chars: real): (t: string)
    requires 0.0 <= chars <= |TitleText| as real
    ensures chars >= 13.5 ==> t == TitleText
    ensures chars < 13.5 ==> '_' in t
  {
    var c := Round(chars);
    TitleProgress(c);
    TitleAt(c)
  }

  /** The section's opacity at pin progress `p`: 1, then a linear fade over the last fifth. */
  function Fade(p: real): (o: real)
    ensures p <= 0.8 ==> o == 1.0
    ensures 0.8 <= p <= 1.0 ==> 0.0 <= o <= 1.0
    ensures p >= 1.0 ==> o <= 0.0
  {
    if p > 0.8 then 1.0 - (p - 0.8) / 0.2 else 1.0
  }

  /** On progress in [0, 1] the opacity stays in [0, 1], never rises, and reaches 0 at the end. */
  lemma FadeBounds(p: real, q: real)
    ensures 0.0 <= p <= 1.0 ==> 0.0 <= Fade(p) <= 1.0
    ensures p <= q ==> Fade(q) <= Fade(p)
    ensures Fade(1.0) == 0.0 && Fade(0.8) == 1.0
  {
  }

  /** Timer handles: `setInterval` returns a positive integer. */
  type TimerId = n: int | n > 0 witness 1

  /** The refs the section's effect mutates. */
  class Section {
    /** `flickerIntervalRef`. */
    var flicker: Option<TimerId>
    /** The handles passed to `clearInterval`, in order. */
    var cleared: seq<TimerId>
    /** `hasPlayedRef`. */
    var hasPlayed: bool
    /** How many times the effect's current timeline was played. */
    var plays: nat
    /** `section.style.opacity`. */
    var opacity: real

    /** A timeline is played once at most, and only after it has been marked played. */
    predicate Valid()
      reads this
    {
      plays <= 1 && (plays == 1 ==> hasPlayed)
    }

    /** The played mark speaks of the current timeline: it is set exactly when that timeline played. */
    predicate InSync()
      reads this
    {
      hasPlayed == (plays == 1)
    }

    constructor ()
      ensures Valid() && InSync()
      ensures flicker.None? && cleared == [] && !hasPlayed && plays == 0 && opacity == 1.0
    {
      flicker := None;
      cleared := [];
      hasPlayed := false;
      plays := 0;
      opacity := 1.0;
    }

    /** `startDataFlicker`: a new interval `next` only when none is running. */
    method StartDataFlicker(next: TimerId)
      modifies this
      ensures old(flicker).Some? ==> flicker == old(flicker)
      ensures old(flicker).None? ==> flicker == Some(next)
      ensures cleared == old(cleared) && hasPlayed == old(hasPlayed) && plays == old(plays)
      ensures opacity == old(opacity)
    {
      if flicker.Some? {
        return;
      }
      flicker := Some(next);
    }

    /** `stopDataFlicker`: clear the running interval, if any, and forget it. */
    method StopDataFlicker()
      modifies this
      ensures flicker.None?
      ensures cleared == old(cleared) + (if old(flicker).Some? then [old(flicker).value] else [])
      ensures hasPlayed == old(hasPlayed) && plays == old(plays) && opacity == old(opacity)
    {
      if flicker.Some? {
        cleared := cleared + [flicker.value];
        flicker := None;
      }
    }

    /** The pin's `onUpdate`: play the timeline the first time progress is positive, then fade. */
    method ScrollUpdate(progress: real)
      requires Valid()
      modifies this
      ensures Valid() && (old(InSync()) ==> InSync())
      ensures hasPlayed == (old(hasPlayed) || progress > 0.0)
      ensures plays == (if !old(hasPlayed) && progress > 0.0 then 1 else old(plays))
      ensures opacity == Fade(progress)
      ensures flicker == old(flicker) && cleared == old(cleared)
    {
      if !hasPlayed && progress > 0.0 {
        hasPlayed := true;
        plays := plays + 1;
      }
      if progress > 0.8 {
        opacity := 1.0 - (progress - 0.8) / 0.2;
      } else {
        opacity := 1.0;
      }
    }

    /**
     * The effect as written, run again because the number of visible nodes
     * changed: the cleanup stops the flicker and kills the old timeline, and
     * the new effect hides the nodes behind a fresh, unplayed timeline. The
     * played mark is a ref, so it survives.
     */
    method RerunAsWritten()
      requires Valid()
      modifies this
      ensures Valid()
      ensures flicker.None?
      ensures cleared == old(cleared) + (if old(flicker).Some? then [old(flicker).value] else [])
      ensures hasPlayed == old(hasPlayed) && plays == 0 && opacity == old(opacity)
    {
      StopDataFlicker();
      plays := 0;
    }

    /** The re-run with the played mark cleared along with the timeline it spoke of. */
    method Rerun()
      requires Valid()
      modifies this
      ensures Valid() && InSync()
      ensures flicker.None?
      ensures cleared == old(cleared) + (if old(flicker).Some? then [old(flicker).value] else [])
      ensures !hasPlayed && plays == 0 && opacity == old(opacity)
    {
      StopDataFlicker();
      hasPlayed := false;
      plays := 0;
    }
  }

  /**
   * After the section has played, a re-run as written leaves the rebuilt
   * timeline unplayed whatever the scroll does next: the nodes stay hidden
   * and the flicker stays off.
   */
  method BlankAfterRerun(s: Section, progress: seq<real>)
    requires s.Valid() && s.hasPlayed
    modifies s
    ensures s.plays == 0 && s.flicker.None? && s.hasPlayed
  {
    s.RerunAsWritten();
    var i := 0;
    while i < |progress|
      invariant 0 <= i <= |progress|
      invariant s.Valid() && s.hasPlayed && s.plays == 0 && s.flicker.None?
    {
      s.ScrollUpdate(progress[i]);
      i := i + 1;
    }
  }

  /**
   * With the mark cleared, the rebuilt timeline plays, once, as soon as the
   * scroll reports positive progress inside the pin.
   */
  method ShownAfterRerun(s: Section, progress: seq<real>)
    requires s.Valid()
    modifies s
    ensures s.Valid() && s.InSync()
    ensures s.plays == 1 <==> exists k :: 0 <= k < |progress| && progress[k] > 0.0
  {
    s.Rerun();
    var i := 0;
    while i < |progress|
      invariant 0 <= i <= |progress|
      invariant s.Valid() && s.InSync()
      invariant s.hasPlayed <==> exists k :: 0 <= k < i && progress[k] > 0.0
    {
      s.ScrollUpdate(progress[i]);
      i := i + 1;
    }
  }

  /** Two starts in a row leave the first interval running; a stop after them clears it once. */
  method StartTwiceThenStop(s: Section, a: TimerId, b: TimerId)
    requires s.flicker.None?
    modifies s
    ensures s.flicker.None? && s.cleared == old(s.cleared) + [a]
  {
    s.StartDataFlicker(a);
    s.StartDataFlicker(b);
    s.StopDataFlicker();
  }
}
