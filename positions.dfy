/**
 * The `UserPositions` role table: sixteen members, each with a storage code
 * (the member's name) and a display label (the member's value), and the
 * ordered list of (code, label) pairs that constrains the `position` column.
 */
module UserPositions {
  import opened Wrappers

  datatype Position =
    | CEO | CTO | Designer | ProductOwner | ProjectOwner
    | BackendDeveloper | FrontendDeveloper | IosDeveloper | MobileDeveloper
    | DevopsEngineer | DataScientist | DataEngineer | DatabaseAdmin
    | MlEngineer | ProjectManager | QA

  /** The storage code of a member: its name in the enumeration. */
  function Name(p: Position): (s: string)
    ensures |s| > 0
    ensures forall i :: 0 <= i < |s| ==> 'A' <= s[i] <= 'Z' || s[i] == '_'
  {
    match p
    case CEO => "CEO"
    case CTO => "CTO"
    case Designer => "DESIGNER"
    case ProductOwner => "PRODUCT_OWNER"
    case ProjectOwner => "PROJECT_OWNER"
    case BackendDeveloper => "BACKEND_DEVELOPER"
    case FrontendDeveloper => "FRONTEND_DEVELOPER"
    case IosDeveloper => "IOS_DEVELOPER"
    case MobileDeveloper => "MOBILE_DEVELOPER"
    case DevopsEngineer => "DEVOPS_ENGINEER"
    case DataScientist => "DATA_SCIENTIST"
    case DataEngineer => "DATA_ENGINEER"
    case DatabaseAdmin => "DATABASE_ADMIN"
    case MlEngineer => "ML_ENGINEER"
    case ProjectManager => "PROJECT_MANAGER"
    case QA => "QA"
  }

  /**
   * The display label of a member: its string value, which is as long as the
   * member's name (a space in the label where the name has an underscore).
   */
  function Label(p: Position): (s: string)
    ensures |s| == |Name(p)| > 0
  {
    match p
    case CEO => "CEO"
    case CTO => "CTO"
    case Designer => "Designer"
    case ProductOwner => "Product Owner"
    case ProjectOwner => "Project Owner"
    case BackendDeveloper => "Backend Developer"
    case FrontendDeveloper => "Frontend Developer"
    case IosDeveloper => "iOS Developer"
    case MobileDeveloper => "Mobile Developer"
    case DevopsEngineer => "DevOps Engineer"
    case DataScientist => "Data Scientist"
    case DataEngineer => "Data Engineer"
    case DatabaseAdmin => "Database Admin"
    case MlEngineer => "ML Engineer"
    case ProjectManager => "Project Manager"
    case QA => "QA"
  }

  /** The position of a member in the declaration, counting from 0. */
  function Ordinal(p: Position): (k: nat)
    ensures k < 16
  {
    match p
    case CEO => 0
    case CTO => 1
    case Designer => 2
    case ProductOwner => 3
    case ProjectOwner => 4
    case BackendDeveloper => 5
    case FrontendDeveloper => 6
    case IosDeveloper => 7
    case MobileDeveloper => 8
    case DevopsEngineer => 9
    case DataScientist => 10
    case DataEngineer => 11
    case DatabaseAdmin => 12
    case MlEngineer => 13
    case ProjectManager => 14
    case QA => 15
  }

  /** The member declared at position `k`, counting from 0. */
  function MemberAt(k: nat): (p: Position)
    requires k < 16
    ensures Ordinal(p) == k
  {
    if k == 0 then CEO
    else if k == 1 then CTO
    else if k == 2 then Designer
    else if k == 3 then ProductOwner
    else if k == 4 then ProjectOwner
    else if k == 5 then BackendDeveloper
    else if k == 6 then FrontendDeveloper
    else if k == 7 then IosDeveloper
    else if k == 8 then MobileDeveloper
    else if k == 9 then DevopsEngineer
    else if k == 10 then DataScientist
    else if k == 11 then DataEngineer
    else if k == 12 then DatabaseAdmin
    else if k == 13 then MlEngineer
    else if k == 14 then ProjectManager
    else QA
  }

  /** Declaration order is a bijection between the members and 0 .. 15. */
  lemma OrdinalBijection(p: Position)
    ensures MemberAt(Ordinal(p)) == p
  {
  }

  /** The members in declaration order, as iterating over the enumeration yields them. */
  function Members(): (ms: seq<Position>)
    ensures |ms| == 16
    ensures forall p :: ms[Ordinal(p)] == p
  {
    var ms := seq(16, k requires 0 <= k < 16 => MemberAt(k));
    assert forall p :: ms[Ordinal(p)] == p by {
      forall p ensures ms[Ordinal(p)] == p { OrdinalBijection(p); }
    }
    ms
  }

  /** The (name, value) pair of every member of `ps`, in the order of `ps`. */
  function ChoicesOf(ps: seq<Position>): (cs: seq<(string, string)>)
    ensures |cs| == |ps|
    ensures forall i :: 0 <= i < |ps| ==> cs[i].0 == Name(ps[i]) && cs[i].1 == Label(ps[i])
  {
    if ps == [] then [] else [(Name(ps[0]), Label(ps[0]))] + ChoicesOf(ps[1..])
  }

  /** `choices()`: one (name, value) pair per member, in declaration order. */
  function Choices(): (cs: seq<(string, string)>)
    ensures |cs| == 16
    ensures forall k :: 0 <= k < 16 ==> cs[k] == (Name(MemberAt(k)), Label(MemberAt(k)))
  {
    var ms := Members();
    assert forall k :: 0 <= k < 16 ==> ms[k] == MemberAt(k);
    ChoicesOf(ms)
  }

  /** Two members with the same storage code are the same member. */
  lemma NameInjective(p: Position, q: Position)
    ensures Name(p) == Name(q) ==> p == q
  {
  }

  /** Every code in `choices()` occurs exactly once. */
  lemma ChoiceNamesDistinct()
    ensures forall i, j :: 0 <= i < j < |Choices()| ==> Choices()[i].0 != Choices()[j].0
  {
    var cs := Choices();
    forall i, j | 0 <= i < j < |cs|
      ensures cs[i].0 != cs[j].0
    {
      NameInjective(MemberAt(i), MemberAt(j));
    }
  }

  /** The index of the first pair in `cs` whose code is `code`, if any. */
  function CodeLookup(code: string, cs: seq<(string, string)>): (r: Option<nat>)
    ensures r.Some? ==> r.value < |cs| && cs[r.value].0 == code
    ensures r.Some? ==> forall j :: 0 <= j < r.value ==> cs[j].0 != code
    ensures r.None? ==> forall j :: 0 <= j < |cs| ==> cs[j].0 != code
  {
    if cs == [] then None
    else if cs[0].0 == code then Some(0)
    else match CodeLookup(code, cs[1..])
      case None => None
      case Some(k) => Some(k + 1)
  }

  /**
   * The member whose code is `code`: the column's `choices` accept a stored
   * value exactly when it is one of the codes of `choices()`.
   */
  function FromCode(code: string): (r: Option<Position>)
    ensures r.Some? ==> Name(r.value) == code
    ensures r.None? ==> forall p :: Name(p) != code
  {
    match CodeLookup(code, Choices())
    case None =>
      assert forall p :: Choices()[Ordinal(p)].0 == Name(p) by {
        forall p ensures MemberAt(Ordinal(p)) == p { OrdinalBijection(p); }
      }
      None
    case Some(k) => Some(MemberAt(k))
  }

  /** A storage code names its member back: codes round-trip through `FromCode`. */
  lemma FromCodeName(p: Position)
    ensures FromCode(Name(p)) == Some(p)
  {
    OrdinalBijection(p);
    assert Choices()[Ordinal(p)].0 == Name(p);
    NameInjective(FromCode(Name(p)).value, p);
  }

  /**
   * A code and its label coincide exactly for CEO, CTO and QA; for every other
   * member the stored code differs from what is displayed.
   */
  lemma NameIsLabelExactly(p: Position)
    ensures Name(p) == Label(p) <==> p in {CEO, CTO, QA}
  {
  }
}
