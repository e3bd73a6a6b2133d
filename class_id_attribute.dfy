/** The `[ClassId]` attribute and the lookup of the member that carries it.
    A type is described by the members reflection enumerates for it, in
    enumeration order. */
module ClassIdAttribute {
  import opened ComTypes

  datatype MemberKind = Field | Property | Method | Constructor | Event | NestedType

  /** An attribute applied to a member, identified by the type that declares its constructor. */
  datatype AttributeType = ClassIdAttr | OtherAttribute(name: string)

  /** One member declared by a type; `staticValue` is what `GetValue(null)` reads from it. */
  datatype MemberInfo = MemberInfo(
    name: string,
    kind: MemberKind,
    isStatic: bool,
    isPublic: bool,
    attributes: seq<AttributeType>,
    staticValue: string)

  datatype TypeDescriptor = TypeDescriptor(name: string, members: seq<MemberInfo>)

  /** Selected by `MemberTypes.Field | MemberTypes.Property` together with
      `BindingFlags.Static | Public | NonPublic`: visibility does not matter. */
  predicate IsCandidate(m: MemberInfo) {
    (m.kind == Field || m.kind == Property) && m.isStatic
  }

  /** The filter: some attribute on the member is exactly `ClassIdAttribute`. */
  predicate CarriesClassId(m: MemberInfo) {
    ClassIdAttr in m.attributes
  }

  predicate IsDecorated(m: MemberInfo) {
    IsCandidate(m) && CarriesClassId(m)
  }

  /** `FindMembers(...)` with the ClassId filter: the decorated members, in order. */
  function FindMembers(members: seq<MemberInfo>): (found: seq<MemberInfo>)
    ensures forall m :: m in found <==> m in members && IsDecorated(m)
    ensures |found| <= |members|
    decreases |members|
  {
    if members == [] then []
    else (if IsDecorated(members[0]) then [members[0]] else []) + FindMembers(members[1..])
  }

  function FirstOrDefault(s: seq<MemberInfo>): (m: Option<MemberInfo>) {
    if s == [] then None else Some(s[0])
  }

  /** Index `i` holds the first decorated member of `members`. */
  predicate IsFirstDecorated(members: seq<MemberInfo>, i: int) {
    0 <= i < |members| && IsDecorated(members[i]) &&
    forall j :: 0 <= j < i ==> !IsDecorated(members[j])
  }

  /** The head of the filtered list is the first decorated member of the whole list. */
  lemma {:induction false} FindMembersHead(members: seq<MemberInfo>)
    ensures FindMembers(members) == [] <==> forall j :: 0 <= j < |members| ==> !IsDecorated(members[j])
    ensures FindMembers(members) != [] ==>
              exists i :: IsFirstDecorated(members, i) && FindMembers(members)[0] == members[i]
    decreases |members|
  {
    if members != [] && !IsDecorated(members[0]) {
      var rest := members[1..];
      FindMembersHead(rest);
      assert forall j :: 1 <= j < |members| ==> members[j] == rest[j - 1];
      if FindMembers(rest) != [] {
        var i :| IsFirstDecorated(rest, i) && FindMembers(rest)[0] == rest[i];
        assert IsFirstDecorated(members, i + 1);
      }
    } else if members != [] {
      assert IsFirstDecorated(members, 0);
    }
  }

  /** The first static field or property, public or not, that carries `[ClassId]`,
      or none when the type declares no such member. */
  function GetDecoratedMember(comType: TypeDescriptor): (r: Option<MemberInfo>)
    ensures r.None? <==> forall j :: 0 <= j < |comType.members| ==> !IsDecorated(comType.members[j])
    ensures r.Some? ==> exists i :: IsFirstDecorated(comType.members, i) && r.value == comType.members[i]
    ensures r.Some? ==> IsCandidate(r.value) && CarriesClassId(r.value)
  {
    FindMembersHead(comType.members);
    FirstOrDefault(FindMembers(comType.members))
  }

  /** The ClassId string of a type: `NotImplementedException` when no member carries
      the attribute, otherwise the static value of the first one that does. */
  function GetClassIdValue(comType: TypeDescriptor): (r: Result<string, Exception>)
    ensures r.Err? <==> forall j :: 0 <= j < |comType.members| ==> !IsDecorated(comType.members[j])
    ensures r.Err? ==> r.error == NotImplemented(comType.name)
    ensures r.Ok? ==> exists i :: IsFirstDecorated(comType.members, i) &&
                                  r.value == comType.members[i].staticValue
  {
    match GetDecoratedMember(comType)
    case None => Err(NotImplemented(comType.name))
    case Some(m) => Ok(m.staticValue)
  }
}
