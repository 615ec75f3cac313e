/**
 * The member directory of frontend/components/member-list.tsx: the same
 * card grid and detail dialog, over a fixed member list whose accounts are
 * plain "linked or not" flags.
 */
module FrontendMemberList {
  import opened Common

  datatype AccountFlags = AccountFlags(line: bool, discord: bool, github: bool)
  {
    function Has(s: Service): bool
    {
      match s
      case Line => line
      case Discord => discord
      case GitHub => github
    }
  }

  /** A member as the list shows it; `links` and `events` are not displayed and not modelled. */
  datatype Member = Member(
    id: string, name: string, nickname: string, department: string, year: string,
    roles: seq<string>, bio: string, avatar: Option<string>, accounts: AccountFlags)

  const Placeholder: string := "/placeholder.svg"

  datatype Card = Card(
    avatarSrc: string,
    fallbackInitial: string,
    title: string,
    nickname: string,
    roleBadges: seq<string>,
    moreRoles: Option<nat>)

  /** One card of the grid: avatar or placeholder, the name, the first two roles and the overflow badge. */
  function CardOf(m: Member): Card
  {
    Card(OrElse(m.avatar, Placeholder), FirstChar(m.name), m.name, m.nickname, ShownRoles(m.roles), MoreRoles(m.roles))
  }

  /** The card shows the first two roles in order, and `+k` for the k others iff there are more than two. */
  lemma CardRoles(m: Member)
    ensures CardOf(m).roleBadges == m.roles[..Min(2, |m.roles|)]
    ensures CardOf(m).moreRoles.Some? <==> |m.roles| > 2
    ensures CardOf(m).moreRoles.Some? ==> CardOf(m).moreRoles.value == |m.roles| - 2
  {
  }

  /** The avatar is the member's own when it is a non-empty string, else the placeholder. */
  lemma CardAvatar(m: Member)
    ensures Truthy(m.avatar) ==> CardOf(m).avatarSrc == m.avatar.value
    ensures !Truthy(m.avatar) ==> CardOf(m).avatarSrc == Placeholder
  {
  }

  /** The services with an account badge: exactly those whose flag is set, in the order LINE, Discord, GitHub. */
  function AccountBadges(a: AccountFlags): (r: seq<Service>)
    ensures forall s :: s in r <==> a.Has(s)
    ensures InServiceOrder(r)
  {
    ServicesWhere(a.line, a.discord, a.github)
  }

  datatype Detail = Detail(
    avatarSrc: string,
    fallbackInitial: string,
    title: string,
    nickname: string,
    department: string,
    year: string,
    roles: seq<string>,
    bio: string,
    badges: seq<Service>)

  function DetailOf(m: Member): (d: Detail)
    ensures d.avatarSrc == CardOf(m).avatarSrc && d.roles == m.roles
    ensures forall s :: s in d.badges <==> m.accounts.Has(s)
  {
    Detail(OrElse(m.avatar, Placeholder), FirstChar(m.name), m.name, m.nickname,
      m.department, m.year, m.roles, m.bio, AccountBadges(m.accounts))
  }

  /** The component's state: the fixed member list and the selection. */
  class MemberListState {
    const members: seq<Member>
    var selected: Option<Member>

    constructor (mock: seq<Member>)
      ensures members == mock && selected == None
    {
      members := mock;
      selected := None;
    }

    /** Clicking a card. */
    method Select(m: Member)
      modifies this
      ensures selected == Some(m)
    {
      selected := Some(m);
    }

    /** `onOpenChange` of the dialog: the selection is cleared. */
    method Close()
      modifies this
      ensures selected == None
    {
      selected := None;
    }

    /** The card grid: one card per member, in list order. */
    function Cards(): (r: seq<Card>)
      reads this
      ensures |r| == |members| && forall i :: 0 <= i < |r| ==> r[i] == CardOf(members[i])
    {
      seq(|members|, i requires 0 <= i < |members| => CardOf(members[i]))
    }

    /** The dialog is open iff a member is selected, and then shows that member. */
    function Dialog(): (r: Option<Detail>)
      reads this
      ensures r.Some? <==> selected.Some?
      ensures r.Some? ==> r.value == DetailOf(selected.value)
    {
      match selected
      case Some(m) => Some(DetailOf(m))
      case None => None
    }
  }
}
