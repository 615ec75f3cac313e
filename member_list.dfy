/**
 * The member directory of components/member-list.tsx: a grid of member
 * cards built from the `/api/members` response (the mock list until it
 * arrives), and a detail dialog for the selected member.
 */
module MemberList {
  import opened Common

  /** The account fields the API may provide; each may be missing. */
  datatype AccountLinks = AccountLinks(
    lineUrl: Option<string>,
    discordUrl: Option<string>,
    githubUrl: Option<string>,
    discordAvatarUrl: Option<string>,
    discordUsername: Option<string>)
  {
    function Url(s: Service): Option<string>
    {
      match s
      case Line => lineUrl
      case Discord => discordUrl
      case GitHub => githubUrl
    }
  }

  /** A member as the list shows it; `links` and `events` are not displayed and not modelled. */
  datatype Member = Member(
    id: string, name: string, nickname: string, department: string, year: string,
    roles: seq<string>, bio: string, avatar: Option<string>, accounts: AccountLinks)

  const CardPlaceholder: string := "/placeholder-user.jpg"
  const DetailPlaceholder: string := "/placeholder.svg"

  /** A link icon: the service and the URL it opens. */
  datatype LinkIcon = LinkIcon(service: Service, href: string)

  /** The services whose URL is truthy, in display order. */
  function LinkedServices(a: AccountLinks): (r: seq<Service>)
    ensures forall s :: s in r <==> Truthy(a.Url(s))
    ensures InServiceOrder(r)
  {
    ServicesWhere(Truthy(a.lineUrl), Truthy(a.discordUrl), Truthy(a.githubUrl))
  }

  /** The link icons: one per linked service, opening that service's URL. */
  function LinkIcons(a: AccountLinks): (r: seq<LinkIcon>)
    ensures |r| == |LinkedServices(a)|
    ensures forall i :: 0 <= i < |r| ==> r[i].service == LinkedServices(a)[i]
    ensures forall i :: 0 <= i < |r| ==> Some(r[i].href) == a.Url(r[i].service)
  {
    var ss := LinkedServices(a);
    seq(|ss|, i requires 0 <= i < |ss| => LinkIcon(ss[i], a.Url(ss[i]).value))
  }

  /** The LINE, Discord and GitHub icons are each present iff the URL is truthy, in that order. */
  lemma LinkIconsExactly(a: AccountLinks)
    ensures forall s :: (exists i :: 0 <= i < |LinkIcons(a)| && LinkIcons(a)[i].service == s) <==> Truthy(a.Url(s))
    ensures forall i, j :: 0 <= i < j < |LinkIcons(a)| ==> Rank(LinkIcons(a)[i].service) < Rank(LinkIcons(a)[j].service)
  {
    var r, ss := LinkIcons(a), LinkedServices(a);
    forall s | Truthy(a.Url(s))
      ensures exists i :: 0 <= i < |r| && r[i].service == s
    {
      var i :| 0 <= i < |ss| && ss[i] == s;
      assert r[i].service == s;
    }
  }

  datatype Card = Card(
    avatarSrc: string,
    fallbackInitial: string,
    title: string,
    nickname: string,
    roleBadges: seq<string>,
    moreRoles: Option<nat>,
    icons: seq<LinkIcon>)

  /** One card of the grid. */
  function CardOf(m: Member): Card
  {
    Card(
      OrElse(m.accounts.discordAvatarUrl, OrElse(m.avatar, CardPlaceholder)),
      FirstChar(m.name),
      OrElse(m.accounts.discordUsername, m.name),
      m.nickname,
      ShownRoles(m.roles),
      MoreRoles(m.roles),
      LinkIcons(m.accounts))
  }

  /** The avatar prefers the Discord avatar, then the member's own, then the placeholder; the title prefers the Discord name. */
  lemma CardFallbacks(m: Member)
    ensures Truthy(m.accounts.discordAvatarUrl) ==> CardOf(m).avatarSrc == m.accounts.discordAvatarUrl.value
    ensures !Truthy(m.accounts.discordAvatarUrl) && Truthy(m.avatar) ==> CardOf(m).avatarSrc == m.avatar.value
    ensures !Truthy(m.accounts.discordAvatarUrl) && !Truthy(m.avatar) ==> CardOf(m).avatarSrc == CardPlaceholder
    ensures CardOf(m).title == if Truthy(m.accounts.discordUsername) then m.accounts.discordUsername.value else m.name
  {
  }

  /** The card shows the first two roles in order, and `+k` for the k others iff there are more than two. */
  lemma CardRoles(m: Member)
    ensures CardOf(m).roleBadges == m.roles[..Min(2, |m.roles|)]
    ensures CardOf(m).moreRoles.Some? <==> |m.roles| > 2
    ensures CardOf(m).moreRoles.Some? ==> CardOf(m).moreRoles.value == |m.roles| - 2
  {
  }

  /** The detail dialog of the selected member. */
  datatype Detail = Detail(
    avatarSrc: string,
    fallbackInitial: string,
    title: string,
    nickname: string,
    department: string,
    year: string,
    roles: seq<string>,
    bio: string,
    links: seq<LinkIcon>)

  function DetailOf(m: Member): (d: Detail)
    ensures d.roles == m.roles && d.links == CardOf(m).icons
    ensures d.avatarSrc == if Truthy(m.avatar) then m.avatar.value else DetailPlaceholder
  {
    Detail(OrElse(m.avatar, DetailPlaceholder), FirstChar(m.name), m.name, m.nickname,
      m.department, m.year, m.roles, m.bio, LinkIcons(m.accounts))
  }

  /** The JSON the fetch resolved to: an array of members or anything else. */
  datatype Json = JsonArray(items: seq<Member>) | OtherJson

  /** How the `fetch("/api/members")` chain ended. */
  datatype FetchOutcome = Fetched(json: Json) | FetchFailed

  /** The component's state, with the effect's `cancelled` flag. */
  class MemberListState {
    var members: seq<Member>
    var selected: Option<Member>
    var cancelled: bool

    /** Mounting: the mock list is shown, nothing is selected, and the load effect starts. */
    constructor (mock: seq<Member>)
      ensures members == mock && selected == None && !cancelled
    {
      members := mock;
      selected := None;
      cancelled := false;
    }

    /** The effect's cleanup, run on unmount. */
    method Cleanup()
      modifies this
      ensures cancelled && members == old(members) && selected == old(selected)
    {
      cancelled := true;
    }

    /**
     * The end of the fetch chain: an array replaces the list unless the
     * effect was cleaned up; anything else, or a failure, keeps the list.
     */
    method Deliver(outcome: FetchOutcome)
      modifies this
      ensures members == (if !old(cancelled) && outcome.Fetched? && outcome.json.JsonArray?
                          then outcome.json.items else old(members))
      ensures old(cancelled) ==> members == old(members)
      ensures cancelled == old(cancelled) && selected == old(selected)
    {
      if !cancelled && outcome.Fetched? && outcome.json.JsonArray? {
        members := outcome.json.items;
      }
    }

    /** Clicking a card. */
    method Select(m: Member)
      modifies this
      ensures selected == Some(m) && members == old(members) && cancelled == old(cancelled)
    {
      selected := Some(m);
    }

    /** `onOpenChange` of the dialog: the selection is cleared. */
    method Close()
      modifies this
      ensures selected == None && members == old(members) && cancelled == old(cancelled)
    {
      selected := None;
    }

    function Cards(): (r: seq<Card>)
      reads this
      ensures |r| == |members| && forall i :: 0 <= i < |r| ==> r[i] == CardOf(members[i])
    {
      seq(|members|, i reads this requires 0 <= i < |members| => CardOf(members[i]))
    }

    /** The dialog is open iff a member is selected, and then shows that member. */
    function Dialog(): (r: Option<Detail>)
      reads this
      ensures r.Some? <==> selected.Some?
      ensures r.Some? ==> r.value == DetailOf(selected.value)
    {
      match selected
      case Some(m) => Some(DetailOf(m))
      case None => None
    }
  }
}
