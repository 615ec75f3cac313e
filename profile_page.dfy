/**
 * The profile page of frontend/app/profile/page.tsx: a record of nine text
 * entries with a per-entry publication flag (`公開設定`), an edit form, a
 * Markdown toolbar that appends fixed snippets to the self-introduction,
 * a preview filter, and the payload `handlePublish` sends to the backend.
 *
 * The Japanese keys of the record are modelled by the constructors of
 * `Key`; `Caption` gives back the key as the page prints it.
 */
module ProfilePage {
  import opened Common

  datatype Key =
    | StudentNumber   // 学籍番号
    | Nickname        // ニックネーム
    | FamilyName      // 姓
    | GivenName       // 名
    | Faculty         // 学部
    | Introduction    // 自己紹介
    | LineHandle      // LINE
    | DiscordHandle   // Discord
    | GitHubHandle    // GitHub

  /** `Object.keys(profile)` without `公開設定`: the order of both the edit form and the preview. */
  const Keys: seq<Key> :=
    [StudentNumber, Nickname, FamilyName, GivenName, Faculty, Introduction, LineHandle, DiscordHandle, GitHubHandle]

  /** The position of a key in `Keys`. */
  function Position(k: Key): (i: nat)
    ensures i < |Keys| && Keys[i] == k
  {
    match k
    case StudentNumber => 0
    case Nickname => 1
    case FamilyName => 2
    case GivenName => 3
    case Faculty => 4
    case Introduction => 5
    case LineHandle => 6
    case DiscordHandle => 7
    case GitHubHandle => 8
  }

  function Caption(k: Key): string
  {
    match k
    case StudentNumber => "学籍番号"
    case Nickname => "ニックネーム"
    case FamilyName => "姓"
    case GivenName => "名"
    case Faculty => "学部"
    case Introduction => "自己紹介"
    case LineHandle => "LINE"
    case DiscordHandle => "Discord"
    case GitHubHandle => "GitHub"
  }

  /** The caption of the combined name entry of the preview. */
  const FullNameCaption: string := "氏名"

  /** `公開設定`: one publication flag per key. */
  datatype Flags = Flags(
    studentNumber: bool, nickname: bool, familyName: bool, givenName: bool, faculty: bool,
    introduction: bool, line: bool, discord: bool, github: bool)
  {
    function Get(k: Key): bool
    {
      match k
      case StudentNumber => studentNumber
      case Nickname => nickname
      case FamilyName => familyName
      case GivenName => givenName
      case Faculty => faculty
      case Introduction => introduction
      case LineHandle => line
      case DiscordHandle => discord
      case GitHubHandle => github
    }

    /** `{ ...flags, [k]: b }`. */
    function With(k: Key, b: bool): (r: Flags)
      ensures r.Get(k) == b
      ensures forall j :: j != k ==> r.Get(j) == Get(j)
    {
      match k
      case StudentNumber => this.(studentNumber := b)
      case Nickname => this.(nickname := b)
      case FamilyName => this.(familyName := b)
      case GivenName => this.(givenName := b)
      case Faculty => this.(faculty := b)
      case Introduction => this.(introduction := b)
      case LineHandle => this.(line := b)
      case DiscordHandle => this.(discord := b)
      case GitHubHandle => this.(github := b)
    }
  }

  datatype Profile = Profile(
    studentNumber: string, nickname: string, familyName: string, givenName: string, faculty: string,
    introduction: string, line: string, discord: string, github: string,
    published: Flags)
  {
    function Get(k: Key): string
    {
      match k
      case StudentNumber => studentNumber
      case Nickname => nickname
      case FamilyName => familyName
      case GivenName => givenName
      case Faculty => faculty
      case Introduction => introduction
      case LineHandle => line
      case DiscordHandle => discord
      case GitHubHandle => github
    }

    /** `{ ...profile, [k]: v }`: the edit form's `onChange` for key `k`. */
    function With(k: Key, v: string): (r: Profile)
      ensures r.Get(k) == v
      ensures forall j :: j != k ==> r.Get(j) == Get(j)
      ensures r.published == published
    {
      match k
      case StudentNumber => this.(studentNumber := v)
      case Nickname => this.(nickname := v)
      case FamilyName => this.(familyName := v)
      case GivenName => this.(givenName := v)
      case Faculty => this.(faculty := v)
      case Introduction => this.(introduction := v)
      case LineHandle => this.(line := v)
      case DiscordHandle => this.(discord := v)
      case GitHubHandle => this.(github := v)
    }

    /** The publication switch of key `k` set to `checked`. */
    function WithFlag(k: Key, checked: bool): (r: Profile)
      ensures r.published.Get(k) == checked
      ensures forall j :: j != k ==> r.published.Get(j) == published.Get(j)
      ensures forall j :: r.Get(j) == Get(j)
    {
      this.(published := published.With(k, checked))
    }
  }

  /** The buttons of the Markdown toolbar above the self-introduction. */
  datatype Snippet = Bold | Italic | Link | InlineCode | Heading

  function Suffix(s: Snippet): (r: string)
    ensures |r| > 0
  {
    match s
    case Bold => " **太字**"
    case Italic => " *斜体*"
    case Link => " [リンク名](https://example.com)"
    case InlineCode => " `コード`"
    case Heading => "\n\n## 見出し"
  }

  /** A toolbar button: the snippet is appended to the self-introduction, with no length cap. */
  function WithSnippet(p: Profile, s: Snippet): (r: Profile)
    ensures |r.introduction| == |p.introduction| + |Suffix(s)| > |p.introduction|
    ensures r.introduction[..|p.introduction|] == p.introduction
    ensures r.introduction[|p.introduction|..] == Suffix(s)
    ensures forall k :: k != Introduction ==> r.Get(k) == p.Get(k)
    ensures r.published == p.published
  {
    p.With(Introduction, p.introduction + Suffix(s))
  }

  /** One row of the edit form: the key, its current value and its switch. */
  datatype Row = Row(key: Key, value: string, checked: bool)

  /** The edit form: one row per key, in `Keys` order, whatever the flags say. */
  function EditRows(p: Profile): (r: seq<Row>)
    ensures |r| == |Keys|
    ensures forall k :: r[Position(k)] == Row(k, p.Get(k), p.published.Get(k))
  {
    seq(|Keys|, i requires 0 <= i < |Keys| => Row(Keys[i], p.Get(Keys[i]), p.published.Get(Keys[i])))
  }

  /** How a preview entry is displayed. */
  datatype Body = Plain(text: string) | Markdown(source: string)

  datatype Entry = Entry(key: Key, caption: string, body: Body)

  /**
   * The preview entry for one key, if any: hidden keys are left out, `名`
   * is never an entry of its own, and `姓` becomes `姓 名` under `氏名`.
   */
  function PreviewEntry(p: Profile, k: Key): (r: Option<Entry>)
    ensures r.Some? <==> p.published.Get(k) && k != GivenName
    ensures r.Some? ==> r.value.key == k
  {
    if !p.published.Get(k) || k == GivenName then None
    else if k == FamilyName then Some(Entry(k, FullNameCaption, Plain(p.familyName + " " + p.givenName)))
    else if k == Introduction then Some(Entry(k, Caption(k), Markdown(p.introduction)))
    else Some(Entry(k, Caption(k), Plain(p.Get(k))))
  }

  /** The `filter`/`map` of the preview over a list of keys. */
  function PreviewFrom(p: Profile, ks: seq<Key>): (r: seq<Entry>)
    ensures |r| <= |ks|
  {
    if ks == [] then []
    else
      match PreviewEntry(p, ks[0])
      case Some(e) => [e] + PreviewFrom(p, ks[1..])
      case None => PreviewFrom(p, ks[1..])
  }

  /** The preview as rendered. */
  function Preview(p: Profile): seq<Entry>
  {
    PreviewFrom(p, Keys)
  }

  /** The entries of `PreviewFrom(p, ks)` are exactly the entries of the keys of `ks`. */
  lemma {:induction false} PreviewFromEntries(p: Profile, ks: seq<Key>)
    ensures forall e :: e in PreviewFrom(p, ks) <==> exists i :: 0 <= i < |ks| && PreviewEntry(p, ks[i]) == Some(e)
  {
    if ks != [] {
      PreviewFromEntries(p, ks[1..]);
      forall e | e in PreviewFrom(p, ks)
        ensures exists i :: 0 <= i < |ks| && PreviewEntry(p, ks[i]) == Some(e)
      {
        if PreviewEntry(p, ks[0]) == Some(e) {
        } else {
          var i :| 0 <= i < |ks[1..]| && PreviewEntry(p, ks[1..][i]) == Some(e);
          assert PreviewEntry(p, ks[i + 1]) == Some(e);
        }
      }
      forall e, i | 0 <= i < |ks| && PreviewEntry(p, ks[i]) == Some(e)
        ensures e in PreviewFrom(p, ks)
      {
        if i > 0 {
          assert PreviewEntry(p, ks[1..][i - 1]) == Some(e);
        }
      }
    }
  }

  /** A key appears in the preview iff its flag is set and it is not `名`; hidden keys are omitted. */
  lemma PreviewShowsKey(p: Profile, k: Key)
    ensures (exists e :: e in Preview(p) && e.key == k) <==> p.published.Get(k) && k != GivenName
  {
    PreviewFromEntries(p, Keys);
    if p.published.Get(k) && k != GivenName {
      var e := PreviewEntry(p, Keys[Position(k)]).value;
      assert e in Preview(p) && e.key == k;
    }
  }

  /** A shown key other than `姓` and `自己紹介` displays its stored value verbatim under its own caption. */
  lemma PreviewShowsValue(p: Profile, k: Key)
    requires p.published.Get(k) && k !in {FamilyName, GivenName, Introduction}
    ensures Entry(k, Caption(k), Plain(p.Get(k))) in Preview(p)
  {
    PreviewFromEntries(p, Keys);
    assert PreviewEntry(p, Keys[Position(k)]) == Some(Entry(k, Caption(k), Plain(p.Get(k))));
  }

  /** A published `自己紹介` is shown under its own caption as Markdown of the stored text. */
  lemma PreviewShowsIntroduction(p: Profile)
    ensures Entry(Introduction, Caption(Introduction), Markdown(p.introduction)) in Preview(p) <==> p.published.introduction
  {
    PreviewFromEntries(p, Keys);
    PreviewShowsKey(p, Introduction);
    if p.published.introduction {
      assert PreviewEntry(p, Keys[5]) == Some(Entry(Introduction, Caption(Introduction), Markdown(p.introduction)));
    }
  }

  /**
   * `名` is shown, inside the combined `姓 名` entry, iff `姓`'s flag is
   * set; `名`'s own flag plays no part in the preview.
   */
  lemma GivenNameFollowsFamilyFlag(p: Profile)
    ensures Entry(FamilyName, FullNameCaption, Plain(p.familyName + " " + p.givenName)) in Preview(p)
            <==> p.published.familyName
    ensures forall e :: e in Preview(p) ==> e.key != GivenName
    ensures forall b :: Preview(p.WithFlag(GivenName, b)) == Preview(p)
  {
    PreviewFromEntries(p, Keys);
    PreviewShowsKey(p, FamilyName);
    if p.published.familyName {
      assert PreviewEntry(p, Keys[2]).value == Entry(FamilyName, FullNameCaption, Plain(p.familyName + " " + p.givenName));
    }
    forall b ensures Preview(p.WithFlag(GivenName, b)) == Preview(p) {
      PreviewFromIgnoresGivenNameFlag(p, b, Keys);
    }
  }

  /** Over any key list, the filtered preview does not depend on `名`'s flag. */
  lemma {:induction false} PreviewFromIgnoresGivenNameFlag(p: Profile, b: bool, ks: seq<Key>)
    ensures PreviewFrom(p.WithFlag(GivenName, b), ks) == PreviewFrom(p, ks)
  {
    if ks != [] {
      assert p.WithFlag(GivenName, b).Get(ks[0]) == p.Get(ks[0]);
      assert PreviewEntry(p.WithFlag(GivenName, b), ks[0]) == PreviewEntry(p, ks[0]);
      PreviewFromIgnoresGivenNameFlag(p, b, ks[1..]);
    }
  }

  /** The preview lists its entries in `Keys` order. */
  lemma PreviewInKeyOrder(p: Profile)
    ensures forall i, j :: 0 <= i < j < |Preview(p)| ==> Position(Preview(p)[i].key) < Position(Preview(p)[j].key)
  {
    PreviewFromOrdered(p, Keys);
  }

  lemma {:induction false} PreviewFromOrdered(p: Profile, ks: seq<Key>)
    requires forall i, j :: 0 <= i < j < |ks| ==> Position(ks[i]) < Position(ks[j])
    ensures forall i, j :: 0 <= i < j < |PreviewFrom(p, ks)| ==>
      Position(PreviewFrom(p, ks)[i].key) < Position(PreviewFrom(p, ks)[j].key)
  {
    if ks != [] {
      var rest := PreviewFrom(p, ks[1..]);
      PreviewFromOrdered(p, ks[1..]);
      PreviewFromEntries(p, ks[1..]);
      forall e | e in rest ensures Position(ks[0]) < Position(e.key) {
        var i :| 0 <= i < |ks[1..]| && PreviewEntry(p, ks[1..][i]) == Some(e);
        assert ks[1..][i] == ks[i + 1];
      }
    }
  }

  /** The `visibility` object of the payload, with the keys the page sends. */
  datatype Visibility = Visibility(name: bool, self_introduction: bool, x: bool, instagram: bool)

  /** The JSON body of the `PUT` that publishes the profile; field names are the JSON keys. */
  datatype Payload = Payload(
    student_id: string, faculty: string, last_name: string, first_name: string, nickname: string,
    self_introduction: string, visibility: Visibility)

  /** The payload as `handlePublish` builds it; the LINE and Discord flags go under `x` and `instagram`. */
  function BuildPayload(p: Profile): Payload
  {
    Payload(
      p.studentNumber, p.faculty, p.familyName, p.givenName, p.nickname, p.introduction,
      Visibility(
        p.published.familyName && p.published.givenName,
        p.published.introduction,
        p.published.line,
        p.published.discord))
  }

  /** Which key's value each text field of the payload carries. */
  function SentValue(w: Payload, k: Key): Option<string>
  {
    match k
    case StudentNumber => Some(w.student_id)
    case Faculty => Some(w.faculty)
    case FamilyName => Some(w.last_name)
    case GivenName => Some(w.first_name)
    case Nickname => Some(w.nickname)
    case Introduction => Some(w.self_introduction)
    case _ => None
  }

  /** The six identity and introduction values are sent verbatim; the three handles are not sent. */
  lemma PayloadValues(p: Profile, k: Key)
    ensures k !in {LineHandle, DiscordHandle, GitHubHandle} ==> SentValue(BuildPayload(p), k) == Some(p.Get(k))
    ensures k in {LineHandle, DiscordHandle, GitHubHandle} ==> forall v :: BuildPayload(p.With(k, v)) == BuildPayload(p)
  {
  }

  /** `visibility.name` holds iff both `姓` and `名` are published; the other flags map one to one. */
  lemma PayloadVisibility(p: Profile)
    ensures BuildPayload(p).visibility.name <==> p.published.Get(FamilyName) && p.published.Get(GivenName)
    ensures BuildPayload(p).visibility.self_introduction == p.published.Get(Introduction)
    ensures BuildPayload(p).visibility.x == p.published.Get(LineHandle)
    ensures BuildPayload(p).visibility.instagram == p.published.Get(DiscordHandle)
  {
  }

  /** The flags of 学籍番号, ニックネーム, 学部 and GitHub are not sent at all. */
  lemma PayloadIgnoresFlags(p: Profile, k: Key, b: bool)
    requires k in {StudentNumber, Nickname, Faculty, GitHubHandle}
    ensures BuildPayload(p.WithFlag(k, b)) == BuildPayload(p)
  {
  }

  /** What the page reports after publishing. */
  datatype PublishOutcome = Published | Refused | Failed

  function AlertText(o: PublishOutcome): string
  {
    match o
    case Published => "プロフィールが公開されました！"
    case Refused => "公開に失敗しました。もう一度お試しください。"
    case Failed => "エラーが発生しました。もう一度お試しください。"
  }

  /** The result of the `fetch` call: a response with its status, or a thrown error. */
  datatype FetchResult = Responded(status: int) | Threw(error: string)

  /** `response.ok`: a status in the range 200 to 299. */
  predicate IsOk(status: int)
  {
    200 <= status <= 299
  }

  function InitialProfile(): Profile
  {
    Profile(
      "2024001", "たろう", "山田", "太郎", "理工学部",
      "**プログラミング**が好きです。特にWeb開発に興味があります。",
      "@yamada_line", "yamada#1234", "github.com/yamada",
      Flags(true, true, true, true, true, true, false, false, true))
  }

  /**
   * As written, the preview shows the full name `姓 名` when `名` is not
   * published, while the payload of the same record marks the name as
   * not visible.
   */
  lemma PreviewDisagreesWithPayload()
    ensures var p := InitialProfile().WithFlag(GivenName, false);
      && p.givenName == "太郎"
      && Entry(FamilyName, FullNameCaption, Plain(p.familyName + " " + p.givenName)) in Preview(p)
      && !BuildPayload(p).visibility.name
  {
    var p := InitialProfile().WithFlag(GivenName, false);
    assert p.published.familyName && !p.published.givenName;
    GivenNameFollowsFamilyFlag(p);
  }

  /** The preview with the combined name gated by both name flags, as the payload gates it. */
  function CorrectedPreview(p: Profile): seq<Entry>
  {
    Preview(p.WithFlag(FamilyName, p.published.familyName && p.published.givenName))
  }

  /** The corrected preview shows the full name iff the payload publishes it. */
  lemma CorrectedPreviewMatchesPayload(p: Profile)
    ensures Entry(FamilyName, FullNameCaption, Plain(p.familyName + " " + p.givenName)) in CorrectedPreview(p)
            <==> BuildPayload(p).visibility.name
    ensures forall e :: e in CorrectedPreview(p) ==> e.key != GivenName
  {
    var q := p.WithFlag(FamilyName, p.published.familyName && p.published.givenName);
    GivenNameFollowsFamilyFlag(q);
    assert q.familyName == p.familyName && q.givenName == p.givenName;
  }

  /** What the page shows: the edit form, or the preview. */
  datatype Screen = EditForm(rows: seq<Row>) | PreviewList(entries: seq<Entry>)

  /** The page's state: the profile record and the edit/preview mode. */
  class ProfilePageState {
    var profile: Profile
    var isEditing: bool

    constructor ()
      ensures profile == InitialProfile() && isEditing
    {
      profile := InitialProfile();
      isEditing := true;
    }

    /** The edit form's `onChange` for key `k`. */
    method SetValue(k: Key, v: string)
      modifies this
      ensures profile == old(profile).With(k, v) && isEditing == old(isEditing)
    {
      profile := profile.With(k, v);
    }

    /** The publication switch of key `k`. */
    method SetFlag(k: Key, checked: bool)
      modifies this
      ensures profile == old(profile).WithFlag(k, checked) && isEditing == old(isEditing)
    {
      profile := profile.WithFlag(k, checked);
    }

    /** A toolbar button. */
    method AppendSnippet(s: Snippet)
      modifies this
      ensures profile == WithSnippet(old(profile), s) && isEditing == old(isEditing)
    {
      profile := WithSnippet(profile, s);
    }

    /** The two mode buttons. */
    method SetEditing(editing: bool)
      modifies this
      ensures isEditing == editing && profile == old(profile)
    {
      isEditing := editing;
    }

    /** `handleSave`: leaves edit mode; no caller on the page uses it. */
    method HandleSave()
      modifies this
      ensures !isEditing && profile == old(profile)
    {
      isEditing := false;
    }

    /**
     * What the page shows: the edit form while editing, else the preview as
     * rendered, which agrees with the corrected preview unless `姓` is
     * published and `名` is not.
     */
    function Render(): (r: Screen)
      reads this
      ensures r.EditForm? <==> isEditing
      ensures r.EditForm? ==> r.rows == EditRows(profile)
      ensures r.PreviewList? ==> r.entries == Preview(profile)
      ensures r.PreviewList? && (profile.published.givenName || !profile.published.familyName) ==> r.entries == CorrectedPreview(profile)
    {
      if isEditing then EditForm(EditRows(profile)) else PreviewList(Preview(profile))
    }

    /**
     * `handlePublish`: sends the payload built from the current record and
     * reports the outcome of `fetch` and the alert shown for it; it changes
     * no state.
     */
    method HandlePublish(result: FetchResult) returns (sent: Payload, outcome: PublishOutcome, alert: string)
      ensures sent == BuildPayload(profile)
      ensures alert == AlertText(outcome)
      ensures outcome == Published <==> result.Responded? && IsOk(result.status)
      ensures outcome == Refused <==> result.Responded? && !IsOk(result.status)
      ensures outcome == Failed <==> result.Threw?
    {
      sent := BuildPayload(profile);
      match result {
        case Responded(status) =>
          if IsOk(status) {
            outcome := Published;
          } else {
            outcome := Refused;
          }
        case Threw(_) =>
          outcome := Failed;
      }
      alert := AlertText(outcome);
    }
  }
}
