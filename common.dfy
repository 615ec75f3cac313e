/**
 * Small shared vocabulary for the profile-system model: optional values,
 * the three external services the club links to, and the JavaScript
 * notions of "truthy string" and `a || b` that the UI code relies on.
 */
module Common {

  datatype Option<T> = None | Some(value: T)

  /** The external services a member can link, in the order every view lists them. */
  datatype Service = Line | Discord | GitHub

  /** The display order of the services. */
  const AllServices: seq<Service> := [Line, Discord, GitHub]

  function Rank(s: Service): nat
  {
    match s
    case Line => 0
    case Discord => 1
    case GitHub => 2
  }

  /** The services appear in display order, each at most once. */
  predicate InServiceOrder(ss: seq<Service>)
  {
    forall i, j :: 0 <= i < j < |ss| ==> Rank(ss[i]) < Rank(ss[j])
  }

  /** The services whose condition holds, in display order. */
  function ServicesWhere(line: bool, discord: bool, github: bool): (r: seq<Service>)
    ensures Line in r <==> line
    ensures Discord in r <==> discord
    ensures GitHub in r <==> github
    ensures InServiceOrder(r)
  {
    (if line then [Line] else []) + (if discord then [Discord] else []) + (if github then [GitHub] else [])
  }

  /** A JavaScript optional string (`string | undefined`) is truthy iff it is present and non-empty. */
  predicate Truthy(s: Option<string>)
  {
    s.Some? && s.value != ""
  }

  /** `a || b` in JavaScript on an optional string: the first operand if it is truthy, else the second. */
  function OrElse(a: Option<string>, b: string): (r: string)
    ensures Truthy(a) ==> r == a.value
    ensures !Truthy(a) ==> r == b
  {
    if Truthy(a) then a.value else b
  }

  /** `s.charAt(0)`: the first character as a string, or "" for the empty string. */
  function FirstChar(s: string): (r: string)
    ensures |r| <= 1
    ensures r == "" <==> s == ""
    ensures r != "" ==> r[0] == s[0]
  {
    if s == [] then "" else [s[0]]
  }

  function Min(a: int, b: int): int
  {
    if a <= b then a else b
  }

  /** `s.slice(0, n)` for a non-negative `n`: the longest prefix of `s` of length at most `n`. */
  function Take<T>(s: seq<T>, n: nat): (r: seq<T>)
    ensures |r| == Min(n, |s|)
    ensures r <= s
  {
    if |s| <= n then s else s[..n]
  }

  /** `s.split(c)[0]`: the part of `s` before the first occurrence of `c` (all of `s` if there is none). */
  function BeforeFirst(s: string, c: char): (r: string)
    ensures r <= s
    ensures c !in r
    ensures r == s || s[|r|] == c
  {
    if s == [] then []
    else if s[0] == c then []
    else [s[0]] + BeforeFirst(s[1..], c)
  }

  /** The role badges of a member card: `roles.slice(0, 2)`. */
  function ShownRoles(roles: seq<string>): (r: seq<string>)
    ensures |r| == Min(2, |roles|)
    ensures r <= roles
  {
    Take(roles, 2)
  }

  /** The overflow badge `+k` of a member card, present iff there are more than two roles. */
  function MoreRoles(roles: seq<string>): (k: Option<nat>)
    ensures k.Some? <==> |roles| > 2
    ensures k.Some? ==> k.value > 0 && k.value == |roles| - 2
  {
    if |roles| > 2 then Some(|roles| - 2) else None
  }

  /** The shown roles and the overflow count together account for every role, in order. */
  lemma RoleBadgesCoverAll(roles: seq<string>)
    ensures var k := match MoreRoles(roles) case Some(n) => n case None => 0;
      |ShownRoles(roles)| + k == |roles| && roles == ShownRoles(roles) + roles[|ShownRoles(roles)|..]
  {
  }
}
