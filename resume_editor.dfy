/**
 * The resume editor's record updates: contact details, summary, experience
 * entries and their bullets, and the skill list. `updateBullet` and
 * `removeBullet` copy the bullet array and change the copy in place; the
 * other helpers build new records by spreading the previous one.
 */
module ResumeEditor {
  import opened Text

  datatype ContactInfo = ContactInfo(fullName: string, jobTitle: string, email: string, phone: string)

  /** The contact fields the editor's inputs name. */
  datatype ContactField = FullName | ContactJobTitle | Email | Phone

  function GetContact(c: ContactInfo, f: ContactField): string {
    match f
    case FullName => c.fullName
    case ContactJobTitle => c.jobTitle
    case Email => c.email
    case Phone => c.phone
  }

  datatype Experience = Experience(
    id: string,
    jobTitle: string,
    company: string,
    startDate: string,
    endDate: string,
    bullets: seq<string>)

  /** The text fields of an experience entry the editor's inputs name. */
  datatype ExperienceField = ExperienceJobTitle | Company | StartDate | EndDate

  function GetExperience(e: Experience, f: ExperienceField): string {
    match f
    case ExperienceJobTitle => e.jobTitle
    case Company => e.company
    case StartDate => e.startDate
    case EndDate => e.endDate
  }

  datatype ResumeData = ResumeData(
    title: string,
    contactInfo: ContactInfo,
    summary: string,
    experience: seq<Experience>,
    skills: seq<string>)

  /** `{ ...contactInfo, [field]: value }`: the named field reads `value`, the others read as before. */
  function SetContact(c: ContactInfo, f: ContactField, value: string): (r: ContactInfo)
    ensures GetContact(r, f) == value
    ensures forall g :: g != f ==> GetContact(r, g) == GetContact(c, g)
  {
    match f
    case FullName => c.(fullName := value)
    case ContactJobTitle => c.(jobTitle := value)
    case Email => c.(email := value)
    case Phone => c.(phone := value)
  }

  /** `{ ...exp, [field]: value }`: the named text field reads `value`; id, bullets and the other fields stay. */
  function SetExperience(e: Experience, f: ExperienceField, value: string): (r: Experience)
    ensures GetExperience(r, f) == value
    ensures forall g :: g != f ==> GetExperience(r, g) == GetExperience(e, g)
    ensures r.id == e.id && r.bullets == e.bullets
  {
    match f
    case ExperienceJobTitle => e.(jobTitle := value)
    case Company => e.(company := value)
    case StartDate => e.(startDate := value)
    case EndDate => e.(endDate := value)
  }

  function UpdateContactInfo(d: ResumeData, f: ContactField, value: string): (r: ResumeData)
    ensures r.(contactInfo := d.contactInfo) == d
    ensures GetContact(r.contactInfo, f) == value
    ensures forall g :: g != f ==> GetContact(r.contactInfo, g) == GetContact(d.contactInfo, g)
  {
    d.(contactInfo := SetContact(d.contactInfo, f, value))
  }

  function UpdateSummary(d: ResumeData, value: string): (r: ResumeData)
    ensures r.summary == value && r.(summary := d.summary) == d
  {
    d.(summary := value)
  }

  /** `experience.map(exp => exp.id === id ? change(exp) : exp)`. */
  function MapMatching(exps: seq<Experience>, id: string, change: Experience -> Experience): (r: seq<Experience>)
    ensures |r| == |exps|
    ensures forall i :: 0 <= i < |exps| && exps[i].id != id ==> r[i] == exps[i]
    ensures forall i :: 0 <= i < |exps| && exps[i].id == id ==> r[i] == change(exps[i])
  {
    seq(|exps|, i requires 0 <= i < |exps| => if exps[i].id == id then change(exps[i]) else exps[i])
  }

  function Ids(exps: seq<Experience>): seq<string> {
    seq(|exps|, i requires 0 <= i < |exps| => exps[i].id)
  }

  /**
   * `updateExperience(id, field, value)`: entries keep their ids and order;
   * other entries are unchanged; a matching entry changes only `field`.
   */
  function UpdateExperience(d: ResumeData, id: string, f: ExperienceField, value: string): (r: ResumeData)
    ensures r.(experience := d.experience) == d
    ensures Ids(r.experience) == Ids(d.experience)
    ensures forall i :: 0 <= i < |d.experience| && d.experience[i].id != id ==> r.experience[i] == d.experience[i]
    ensures forall i :: 0 <= i < |d.experience| && d.experience[i].id == id ==>
      GetExperience(r.experience[i], f) == value && r.experience[i].bullets == d.experience[i].bullets
      && forall g :: g != f ==> GetExperience(r.experience[i], g) == GetExperience(d.experience[i], g)
  {
    d.(experience := MapMatching(d.experience, id, (e: Experience) => SetExperience(e, f, value)))
  }

  /** The bullet list with the element at `index` replaced. */
  function ReplaceAt(s: seq<string>, index: nat, value: string): (r: seq<string>)
    requires index < |s|
    ensures |r| == |s| && r[index] == value
    ensures forall j :: 0 <= j < |s| && j != index ==> r[j] == s[j]
  {
    s[index := value]
  }

  /** `splice(index, 1)` for a non-negative index: drop the element there, or nothing past the end. */
  function RemoveAt(s: seq<string>, index: nat): (r: seq<string>)
    ensures index < |s| ==> |r| == |s| - 1
    ensures index >= |s| ==> r == s
    ensures forall j :: 0 <= j < index && j < |r| ==> r[j] == s[j]
    ensures forall j :: index <= j < |r| ==> r[j] == s[j + 1]
  {
    if index < |s| then s[..index] + s[index + 1..] else s
  }

  /** `const newBullets = [...exp.bullets]; newBullets[index] = value;` */
  method CopyAndSet(bullets: seq<string>, index: nat, value: string) returns (r: seq<string>)
    requires index < |bullets|
    ensures r == ReplaceAt(bullets, index, value)
  {
    var newBullets := new string[|bullets|](i requires 0 <= i < |bullets| => bullets[i]);
    newBullets[index] := value;
    r := newBullets[..];
  }

  /** `const newBullets = [...exp.bullets]; newBullets.splice(index, 1);` */
  method CopyAndSplice(bullets: seq<string>, index: nat) returns (r: seq<string>)
    ensures r == RemoveAt(bullets, index)
  {
    var newBullets := new string[|bullets|](i requires 0 <= i < |bullets| => bullets[i]);
    if index >= newBullets.Length {
      return newBullets[..];
    }
    var j := index;
    while j < newBullets.Length - 1
      invariant index <= j <= newBullets.Length - 1
      invariant newBullets[..j] == bullets[..index] + bullets[index + 1..j + 1]
      invariant newBullets[j + 1..] == bullets[j + 1..]
    {
      newBullets[j] := newBullets[j + 1];
      j := j + 1;
    }
    r := newBullets[..newBullets.Length - 1];
  }

  /** Only the bullets of matching entries change, and ids and order stay. */
  predicate BulletsEdit(d: ResumeData, r: ResumeData, id: string, edit: seq<string> -> seq<string>) {
    && r.(experience := d.experience) == d
    && |r.experience| == |d.experience|
    && forall i :: 0 <= i < |d.experience| ==>
         r.experience[i] == (if d.experience[i].id == id
                             then d.experience[i].(bullets := edit(d.experience[i].bullets))
                             else d.experience[i])
  }

  /** Every entry with the id has a bullet at `index`. */
  predicate HasBulletAt(d: ResumeData, id: string, index: nat) {
    forall i :: 0 <= i < |d.experience| && d.experience[i].id == id ==> index < |d.experience[i].bullets|
  }

  /** `updateBullet(id, index, value)`: exactly the bullet at `index` of the matching entries is replaced. */
  function UpdateBullet(d: ResumeData, id: string, index: nat, value: string): (r: ResumeData)
    requires HasBulletAt(d, id, index)
    ensures Ids(r.experience) == Ids(d.experience)
    ensures r.(experience := d.experience) == d && |r.experience| == |d.experience|
    ensures forall i :: 0 <= i < |d.experience| && d.experience[i].id != id ==> r.experience[i] == d.experience[i]
    ensures forall i :: 0 <= i < |d.experience| && d.experience[i].id == id ==>
      r.experience[i].(bullets := d.experience[i].bullets) == d.experience[i]
      && |r.experience[i].bullets| == |d.experience[i].bullets|
      && r.experience[i].bullets[index] == value
      && forall j :: 0 <= j < |d.experience[i].bullets| && j != index ==>
           r.experience[i].bullets[j] == d.experience[i].bullets[j]
  {
    d.(experience := MapMatching(d.experience, id,
      (e: Experience) => if index < |e.bullets| then e.(bullets := ReplaceAt(e.bullets, index, value)) else e))
  }

  /** `addBullet(id)`: one empty bullet at the end of each matching entry. */
  function AddBullet(d: ResumeData, id: string): (r: ResumeData)
    ensures Ids(r.experience) == Ids(d.experience)
    ensures BulletsEdit(d, r, id, (b: seq<string>) => b + [""])
  {
    d.(experience := MapMatching(d.experience, id, (e: Experience) => e.(bullets := e.bullets + [""])))
  }

  /** `removeBullet(id, index)`: the bullet at `index` of matching entries is dropped; past the end, nothing. */
  function RemoveBullet(d: ResumeData, id: string, index: nat): (r: ResumeData)
    ensures Ids(r.experience) == Ids(d.experience)
    ensures BulletsEdit(d, r, id, (b: seq<string>) => RemoveAt(b, index))
  {
    d.(experience := MapMatching(d.experience, id, (e: Experience) => e.(bullets := RemoveAt(e.bullets, index))))
  }

  predicate UniqueIds(exps: seq<Experience>) {
    forall i, j :: 0 <= i < j < |exps| ==> exps[i].id != exps[j].id
  }

  /** Removing the bullet just added restores the entry. */
  lemma {:induction false} RemoveAddedBullet(d: ResumeData, k: nat)
    requires k < |d.experience| && UniqueIds(d.experience)
    ensures RemoveBullet(AddBullet(d, d.experience[k].id), d.experience[k].id, |d.experience[k].bullets|) == d
  {
    var id := d.experience[k].id;
    var n := |d.experience[k].bullets|;
    var added := AddBullet(d, id);
    var r := RemoveBullet(added, id, n);
    assert BulletsEdit(d, added, id, (b: seq<string>) => b + [""]);
    assert BulletsEdit(added, r, id, (b: seq<string>) => RemoveAt(b, n));
    forall i | 0 <= i < |d.experience| ensures r.experience[i] == d.experience[i] {
      if d.experience[i].id == id {
        assert i == k;
        var b := d.experience[k].bullets;
        assert added.experience[k].bullets == b + [""];
        assert RemoveAt(b + [""], n) == b;
      }
    }
    assert r.experience == d.experience;
  }

  /** The entry `addExperience` appends: a fresh id, empty text fields and one empty bullet. */
  function BlankExperience(id: string): Experience {
    Experience(id, "", "", "", "", [""])
  }

  /** `addExperience()` with the id `nanoid()` drew: earlier entries stay as they were. */
  function AddExperience(d: ResumeData, freshId: string): (r: ResumeData)
    ensures r.(experience := d.experience) == d
    ensures |r.experience| == |d.experience| + 1 && r.experience[..|d.experience|] == d.experience
    ensures r.experience[|d.experience|] == BlankExperience(freshId)
  {
    d.(experience := d.experience + [BlankExperience(freshId)])
  }

  /** With a fresh id, the entries' ids stay distinct, so id-keyed updates keep hitting one entry each. */
  lemma AddExperienceKeepsIdsUnique(d: ResumeData, freshId: string)
    requires UniqueIds(d.experience)
    requires forall i :: 0 <= i < |d.experience| ==> d.experience[i].id != freshId
    ensures UniqueIds(AddExperience(d, freshId).experience)
  {
  }

  /**
   * `addSkill()` on the skill input's text: whitespace-only input changes
   * nothing; otherwise the trimmed text is appended and the input cleared.
   */
  function AddSkill(d: ResumeData, input: string): (r: (ResumeData, string))
    ensures (forall k :: 0 <= k < |input| ==> IsSpace(input[k])) ==> r == (d, input)
    ensures (exists k :: 0 <= k < |input| && !IsSpace(input[k])) ==>
      r.0 == d.(skills := d.skills + [Trim(input)]) && r.1 == ""
  {
    TrimBlankIff(input);
    if Trim(input) == "" then (d, input) else (d.(skills := d.skills + [Trim(input)]), "")
  }

  /** Every skill `addSkill` appends is non-empty, has no surrounding whitespace and is a piece of the input. */
  lemma AddedSkillIsTrimmed(d: ResumeData, input: string)
    requires |AddSkill(d, input).0.skills| > |d.skills|
    ensures var s := AddSkill(d, input).0.skills[|d.skills|];
      s != "" && !IsSpace(s[0]) && !IsSpace(s[|s| - 1])
      && exists i: nat, j: nat :: IsInnerSlice(input, i, j) && s == input[i..j]
  {
    var i, j := TrimIsInnerSlice(input);
  }

  /** `skills.filter((_, i) => i !== index)`. */
  function FilterIndex(s: seq<string>, index: nat): seq<string> {
    if s == [] then []
    else FilterIndex(s[..|s| - 1], index) + (if |s| - 1 != index then [s[|s| - 1]] else [])
  }

  /** The index filter deletes like `splice` does. */
  lemma {:induction false} FilterIndexIsRemoveAt(s: seq<string>, index: nat)
    ensures FilterIndex(s, index) == RemoveAt(s, index)
  {
    if s != [] {
      var init := s[..|s| - 1];
      FilterIndexIsRemoveAt(init, index);
      if index < |init| {
        assert RemoveAt(s, index) == RemoveAt(init, index) + [s[|s| - 1]];
      } else if index == |init| {
        assert RemoveAt(init, index) == init == RemoveAt(s, index);
      } else {
        assert RemoveAt(s, index) == s == init + [s[|s| - 1]];
      }
    }
  }

  /** `removeSkill(index)`: the skill at `index` is gone, the others keep their order. */
  function RemoveSkill(d: ResumeData, index: nat): (r: ResumeData)
    ensures r.(skills := d.skills) == d
    ensures r.skills == RemoveAt(d.skills, index)
  {
    FilterIndexIsRemoveAt(d.skills, index);
    d.(skills := FilterIndex(d.skills, index))
  }
}
