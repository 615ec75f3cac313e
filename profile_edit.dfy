/**
 * The settings editor of components/profile-edit.tsx: one profile record
 * with a privacy flag per disclosure group, an edit view the owner works in,
 * and a preview that shows how other members see the profile.
 *
 * The privacy groups: `studentId`, `name` (gates both `lastName` and
 * `firstName`; `firstName` has no flag of its own), `nickname`,
 * `department` and `bio`.
 */
module ProfileEdit {
  import opened Common

  /** The bio editor keeps at most this many characters. */
  const BioLimit: nat := 500
  /** Marker shown in the preview in place of a private field. */
  const Hidden: string := "非公開"
  /** Shown in the edit view for an account that is not connected. */
  const NotLinked: string := "未連携"

  datatype PrivacyFlag = StudentIdFlag | NameFlag | NicknameFlag | DepartmentFlag | BioFlag

  datatype Privacy = Privacy(studentId: bool, name: bool, nickname: bool, department: bool, bio: bool)
  {
    function Get(f: PrivacyFlag): bool
    {
      match f
      case StudentIdFlag => studentId
      case NameFlag => name
      case NicknameFlag => nickname
      case DepartmentFlag => department
      case BioFlag => bio
    }

    /** The flag map with exactly `f` negated. */
    function Toggled(f: PrivacyFlag): (r: Privacy)
      ensures r.Get(f) == !Get(f)
      ensures forall g :: g != f ==> r.Get(g) == Get(g)
    {
      match f
      case StudentIdFlag => this.(studentId := !studentId)
      case NameFlag => this.(name := !name)
      case NicknameFlag => this.(nickname := !nickname)
      case DepartmentFlag => this.(department := !department)
      case BioFlag => this.(bio := !bio)
    }
  }

  datatype Account = Account(connected: bool, id: string)

  datatype Accounts = Accounts(line: Account, discord: Account, github: Account)
  {
    function Get(s: Service): Account
    {
      match s
      case Line => line
      case Discord => discord
      case GitHub => github
    }
  }

  datatype Profile = Profile(
    studentId: string,
    lastName: string,
    firstName: string,
    nickname: string,
    department: string,
    bio: string,
    privacy: Privacy,
    accounts: Accounts)

  /** The text fields the edit view lets the owner change. */
  datatype TextField = StudentId | Department | LastName | FirstName | Nickname | Bio

  function FieldValue(p: Profile, f: TextField): string
  {
    match f
    case StudentId => p.studentId
    case Department => p.department
    case LastName => p.lastName
    case FirstName => p.firstName
    case Nickname => p.nickname
    case Bio => p.bio
  }

  /** The privacy group each text field belongs to. */
  function GroupOf(f: TextField): (g: PrivacyFlag)
    ensures f in {LastName, FirstName} <==> g == NameFlag
  {
    match f
    case StudentId => StudentIdFlag
    case Department => DepartmentFlag
    case LastName => NameFlag
    case FirstName => NameFlag
    case Nickname => NicknameFlag
    case Bio => BioFlag
  }

  /** What the bio textarea stores for an input: its first 500 characters. */
  function StoredBio(input: string): (r: string)
    ensures |r| <= BioLimit
    ensures r <= input
    ensures |input| <= BioLimit ==> r == input
    ensures |input| > BioLimit ==> |r| == BioLimit
  {
    Take(input, BioLimit)
  }

  /** The record after the owner types `v` into field `f`. */
  function WithField(p: Profile, f: TextField, v: string): (r: Profile)
    ensures FieldValue(r, f) == if f == Bio then StoredBio(v) else v
    ensures forall g :: g != f ==> FieldValue(r, g) == FieldValue(p, g)
    ensures r.privacy == p.privacy && r.accounts == p.accounts
  {
    match f
    case StudentId => p.(studentId := v)
    case Department => p.(department := v)
    case LastName => p.(lastName := v)
    case FirstName => p.(firstName := v)
    case Nickname => p.(nickname := v)
    case Bio => p.(bio := StoredBio(v))
  }

  /** The record after the owner flips the switch of group `f`. */
  function WithToggled(p: Profile, f: PrivacyFlag): (r: Profile)
    ensures r.privacy.Get(f) == !p.privacy.Get(f)
    ensures forall g :: g != f ==> r.privacy.Get(g) == p.privacy.Get(g)
    ensures forall t :: FieldValue(r, t) == FieldValue(p, t)
    ensures r.accounts == p.accounts
  {
    p.(privacy := p.privacy.Toggled(f))
  }

  /** The connected services, in the order LINE, Discord, GitHub. */
  function Connected(a: Accounts): (r: seq<Service>)
    ensures forall s :: s in r <==> a.Get(s).connected
    ensures InServiceOrder(r)
  {
    ServicesWhere(a.line.connected, a.discord.connected, a.github.connected)
  }

  /** What the owner sees in the edit view for one account. */
  datatype AccountRow = AccountRow(service: Service, shown: string, linked: bool)

  /** The edit view: every field verbatim, the switches, the bio counter and the account rows. */
  datatype EditView = EditView(
    studentId: string,
    department: string,
    lastName: string,
    firstName: string,
    nickname: string,
    bio: string,
    bioCount: nat,
    switches: Privacy,
    accountRows: seq<AccountRow>)

  function AccountRowOf(s: Service, a: Account): AccountRow
  {
    AccountRow(s, if a.connected then a.id else NotLinked, a.connected)
  }

  function EditViewOf(p: Profile): (r: EditView)
    ensures forall f :: EditField(r, f) == FieldValue(p, f)
    ensures r.bioCount == |p.bio| && r.switches == p.privacy
    ensures |r.accountRows| == 3
    ensures forall i :: 0 <= i < 3 ==>
      var row := r.accountRows[i];
      row.service == AllServices[i] &&
      row.linked == p.accounts.Get(row.service).connected &&
      row.shown == (if row.linked then p.accounts.Get(row.service).id else NotLinked)
  {
    EditView(p.studentId, p.department, p.lastName, p.firstName, p.nickname, p.bio, |p.bio|, p.privacy,
      [AccountRowOf(Line, p.accounts.line),
       AccountRowOf(Discord, p.accounts.discord),
       AccountRowOf(GitHub, p.accounts.github)])
  }

  function EditField(v: EditView, f: TextField): string
  {
    match f
    case StudentId => v.studentId
    case Department => v.department
    case LastName => v.lastName
    case FirstName => v.firstName
    case Nickname => v.nickname
    case Bio => v.bio
  }

  /** The preview, as other members see the profile. `bio` is `None` when the bio section is absent. */
  datatype PreviewView = PreviewView(
    avatarInitial: string,
    displayName: string,
    nickname: string,
    studentId: string,
    department: string,
    bio: Option<string>,
    linked: seq<Service>)

  function Disclose(visible: bool, value: string): string
  {
    if visible then value else Hidden
  }

  /**
   * The preview exactly as rendered, including the avatar initial, which
   * is taken from `firstName` whatever the `name` flag says.
   */
  function Preview(p: Profile): PreviewView
  {
    PreviewView(
      FirstChar(p.firstName),
      Disclose(p.privacy.name, p.lastName + " " + p.firstName),
      Disclose(p.privacy.nickname, p.nickname),
      Disclose(p.privacy.studentId, p.studentId),
      Disclose(p.privacy.department, p.department),
      if p.privacy.bio then Some(p.bio) else None,
      Connected(p.accounts))
  }

  /** The preview with the avatar initial hidden together with the name it is taken from. */
  function RedactedPreview(p: Profile): PreviewView
  {
    Preview(p).(avatarInitial := if p.privacy.name then FirstChar(p.firstName) else "")
  }

  /** Each marked field of the preview shows the stored value iff its group is public, else the marker. */
  lemma PreviewDisclosure(p: Profile)
    ensures Preview(p).studentId == (if p.privacy.Get(GroupOf(StudentId)) then p.studentId else Hidden)
    ensures Preview(p).department == (if p.privacy.Get(GroupOf(Department)) then p.department else Hidden)
    ensures Preview(p).nickname == (if p.privacy.Get(GroupOf(Nickname)) then p.nickname else Hidden)
    ensures p.privacy.Get(GroupOf(FirstName)) ==> Preview(p).displayName == p.lastName + " " + p.firstName
    ensures !p.privacy.Get(GroupOf(LastName)) ==> Preview(p).displayName == Hidden
    ensures Preview(p).bio.Some? <==> p.privacy.bio
    ensures Preview(p).bio.Some? ==> Preview(p).bio.value == p.bio
    ensures forall s :: s in Preview(p).linked <==> p.accounts.Get(s).connected
  {
  }

  /** The single `name` flag decides the disclosure of both name parts at once. */
  lemma {:induction false} NameGroupToggle(p: Profile)
    requires p.privacy.name
    ensures Preview(p).displayName == p.lastName + " " + p.firstName
    ensures Preview(WithToggled(p, NameFlag)).displayName == Hidden
    ensures Preview(WithToggled(WithToggled(p, NameFlag), NameFlag)) == Preview(p)
  {
    TogglePrivacyInvolution(p, NameFlag);
  }

  /** Flipping the same switch twice gives back the original record. */
  lemma TogglePrivacyInvolution(p: Profile, f: PrivacyFlag)
    ensures WithToggled(WithToggled(p, f), f) == p
  {
  }

  /** Re-typing the bio that is already stored, or the same oversized input, changes nothing. */
  lemma BioWriteIdempotent(p: Profile, v: string)
    ensures WithField(WithField(p, Bio, v), Bio, v) == WithField(p, Bio, v)
    ensures WithField(WithField(p, Bio, v), Bio, StoredBio(v)) == WithField(p, Bio, v)
  {
  }

  /**
   * A private field other than `firstName` does not influence the preview:
   * changing it leaves the whole preview unchanged.
   */
  lemma {:induction false} HiddenFieldDoesNotLeak(p: Profile, f: TextField, v: string)
    requires f != FirstName
    requires !p.privacy.Get(GroupOf(f))
    ensures Preview(WithField(p, f, v)) == Preview(p)
  {
    var q := WithField(p, f, v);
    assert q.privacy == p.privacy && q.accounts == p.accounts;
    match f
    case StudentId => assert q == p.(studentId := v);
    case Department => assert q == p.(department := v);
    case LastName => assert q == p.(lastName := v);
    case Nickname => assert q == p.(nickname := v);
    case Bio => assert q.bio == StoredBio(v);
  }

  /** The default record of the editor. */
  function InitialProfile(): Profile
  {
    Profile(
      "B1234567", "田中", "太郎", "たなたろ", "情報工学部",
      "# 自己紹介\n\nプログラミングが好きな2年生です！\n\n## 興味のある分野\n- **Webアプリ開発**\n- **機械学習**\n- **UI/UXデザイン**\n\n## 最近の活動\n- サークルのWebサイト制作\n- ハッカソン参加\n\nよろしくお願いします！ 🚀",
      Privacy(false, true, true, true, true),
      Accounts(Account(true, "tanaka_taro"), Account(true, "tanaka#1234"), Account(true, "tanaka-dev")))
  }

  /**
   * As written, the preview's avatar initial discloses the first character
   * of `firstName` while the name is private: two records that differ only
   * in `firstName` have different previews.
   */
  lemma AvatarInitialLeaksFirstName()
    ensures var p := InitialProfile().(privacy := InitialProfile().privacy.(name := false));
      && Preview(p).displayName == Hidden
      && Preview(p).avatarInitial == "太"
      && Preview(WithField(p, FirstName, "花子")) != Preview(p)
  {
    var p := InitialProfile().(privacy := InitialProfile().privacy.(name := false));
    assert Preview(WithField(p, FirstName, "花子")).avatarInitial == "花";
  }

  /** With the initial redacted, no private field at all, `firstName` included, influences the preview. */
  lemma {:induction false} RedactedHiddenFieldDoesNotLeak(p: Profile, f: TextField, v: string)
    requires !p.privacy.Get(GroupOf(f))
    ensures RedactedPreview(WithField(p, f, v)) == RedactedPreview(p)
  {
    if f != FirstName {
      HiddenFieldDoesNotLeak(p, f, v);
    } else {
      assert WithField(p, f, v) == p.(firstName := v);
    }
  }

  /** What the component shows: the edit view in edit mode, the preview otherwise. */
  datatype Screen = Editing(edit: EditView) | Previewing(preview: PreviewView)

  /** The component's state: the profile record and the edit/preview mode. */
  class ProfileEditor {
    var profile: Profile
    var isEditMode: bool

    constructor ()
      ensures profile == InitialProfile() && isEditMode
    {
      profile := InitialProfile();
      isEditMode := true;
    }

    /** `togglePrivacy(f)`. */
    method TogglePrivacy(f: PrivacyFlag)
      modifies this
      ensures profile == WithToggled(old(profile), f)
      ensures isEditMode == old(isEditMode)
    {
      profile := WithToggled(profile, f);
    }

    /** The `onChange` handlers of the six inputs; the bio handler keeps the first 500 characters. */
    method SetField(f: TextField, v: string)
      modifies this
      ensures profile == WithField(old(profile), f, v)
      ensures isEditMode == old(isEditMode)
    {
      profile := WithField(profile, f, v);
    }

    /** `handleSave`: leaves edit mode and does not touch the record. */
    method HandleSave()
      modifies this
      ensures !isEditMode && profile == old(profile)
    {
      isEditMode := false;
    }

    /** The tab bar: edit mode iff the "edit" tab was chosen. */
    method SelectTab(value: string)
      modifies this
      ensures isEditMode == (value == "edit") && profile == old(profile)
    {
      isEditMode := value == "edit";
    }

    /** The "back to edit mode" button of the preview. */
    method ReturnToEdit()
      modifies this
      ensures isEditMode && profile == old(profile)
    {
      isEditMode := true;
    }

    /**
     * What the component shows: the edit view in edit mode, else the preview
     * as rendered, which differs from the redacted preview only in the avatar
     * initial, and only while the name is private.
     */
    function Render(): (r: Screen)
      reads this
      ensures r.Editing? <==> isEditMode
      ensures r.Editing? ==> forall f :: EditField(r.edit, f) == FieldValue(profile, f)
      ensures r.Previewing? ==> r.preview == Preview(profile)
      ensures r.Previewing? ==> r.preview.(avatarInitial := RedactedPreview(profile).avatarInitial) == RedactedPreview(profile)
      ensures r.Previewing? && profile.privacy.name ==> r.preview == RedactedPreview(profile)
      ensures r.Previewing? && !profile.privacy.name ==> r.preview.displayName == Hidden && r.preview.avatarInitial == FirstChar(profile.firstName)
    {
      if isEditMode then Editing(EditViewOf(profile)) else Previewing(Preview(profile))
    }
  }
}
