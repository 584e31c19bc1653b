/** Profile setup for a new student (src/pages/Onboarding.tsx): the
    eight-character parent code, the loop that draws codes until one is
    not yet taken, and the profile row that is inserted. Math.random's
    results are parameters, and the profiles table is given as the sets of
    usernames and parent codes already in use. */
module Onboarding {
  import opened Common

  /** The code alphabet: the upper-case letters and digits without the
      look-alikes I, O, 0 and 1. */
  const Alphabet: string := "ABCDEFGHJKLMNPQRSTUVWXYZ23456789"

  const CodeLength: nat := 8

  /** `Math.floor(r * chars.length)`: for r in [0, 1) a valid index. */
  function CharIndex(r: Draw): (k: int)
    ensures 0 <= k < |Alphabet|
  {
    (r * 32.0).Floor
  }

  /** The characters drawn with the given results of Math.random, one per
      draw, in order. */
  function ParentCode(draws: seq<Draw>): (code: string)
    ensures |code| == |draws|
    ensures forall i :: 0 <= i < |draws| ==> code[i] == Alphabet[CharIndex(draws[i])]
    ensures forall c :: c in code ==> c in Alphabet
  {
    if draws == [] then ""
    else ParentCode(draws[..|draws| - 1]) + [Alphabet[CharIndex(draws[|draws| - 1])]]
  }

  /** A code never holds a character that reads like another. */
  lemma NoLookAlikes(draws: seq<Draw>)
    ensures forall c :: c in ParentCode(draws) ==> c != 'I' && c != 'O' && c != '0' && c != '1'
  {
    forall c | c in Alphabet
      ensures c != 'I' && c != 'O' && c != '0' && c != '1'
    {
      var k :| 0 <= k < |Alphabet| && Alphabet[k] == c;
    }
  }

  /** `generateParentCode`: appends one character per draw, eight times. */
  method GenerateParentCode(draws: seq<Draw>) returns (code: string)
    requires |draws| == CodeLength
    ensures code == ParentCode(draws)
    ensures |code| == CodeLength
  {
    code := "";
    for i := 0 to CodeLength
      invariant code == ParentCode(draws[..i])
    {
      assert draws[..i + 1][..i] == draws[..i];
      code := code + [Alphabet[CharIndex(draws[i])]];
    }
    assert draws[..CodeLength] == draws;
  }

  /** The uniqueness loop: draw a code, and draw again while a profile
      already holds it. `attempts` supplies the draws for each try; when
      they run out without a free code the result is None. A code that is
      returned is the first free one among the tries. */
  method UniqueParentCode(attempts: seq<seq<Draw>>, existing: set<string>) returns (code: Option<string>)
    requires forall a :: a in attempts ==> |a| == CodeLength
    ensures code.Some? ==>
              && code.value !in existing
              && |code.value| == CodeLength
              && exists i :: 0 <= i < |attempts| && code.value == ParentCode(attempts[i])
                                                 && forall j :: 0 <= j < i ==> ParentCode(attempts[j]) in existing
    ensures code.None? ==> forall i :: 0 <= i < |attempts| ==> ParentCode(attempts[i]) in existing
  {
    var i := 0;
    while i < |attempts|
      invariant 0 <= i <= |attempts|
      invariant forall j :: 0 <= j < i ==> ParentCode(attempts[j]) in existing
    {
      assert attempts[i] in attempts;
      var candidate := GenerateParentCode(attempts[i]);
      if candidate !in existing {
        code := Some(candidate);
        return;
      }
      i := i + 1;
    }
    code := None;
  }

  datatype Role = Student | Parent

  /** The inserted profile row. */
  datatype Profile = Profile(id: string, username: string, role: Role, parentCode: string, virtualCash: real)

  datatype SetupError = NoUser | UsernameTaken | NoFreeCode

  /** `handleUsernameSubmit` for the student role: fails without a signed-in
      user or with a username already in use; otherwise inserts a student
      profile with a fresh parent code and the starting cash. */
  method CreateStudentProfile(user: Option<string>, username: string, takenUsernames: set<string>,
                              existingCodes: set<string>, attempts: seq<seq<Draw>>)
    returns (r: Result<Profile, SetupError>)
    requires forall a :: a in attempts ==> |a| == CodeLength
    ensures user.None? ==> r == Failure(NoUser)
    ensures user.Some? && username in takenUsernames ==> r == Failure(UsernameTaken)
    ensures r.Success? ==>
              && user.Some? && username !in takenUsernames
              && r.value == Profile(user.value, username, Student, r.value.parentCode, InitialVirtualCash)
              && r.value.parentCode !in existingCodes
              && |r.value.parentCode| == CodeLength
    ensures r == Failure(NoFreeCode) ==>
              forall i :: 0 <= i < |attempts| ==> ParentCode(attempts[i]) in existingCodes
    ensures r == Failure(NoUser) <==> user.None?
    ensures r == Failure(UsernameTaken) <==> user.Some? && username in takenUsernames
    ensures r == Failure(NoFreeCode) <==>
              && user.Some? && username !in takenUsernames
              && forall i :: 0 <= i < |attempts| ==> ParentCode(attempts[i]) in existingCodes
    ensures r.Success? ==>
              exists i :: 0 <= i < |attempts| && r.value.parentCode == ParentCode(attempts[i])
                          && forall j :: 0 <= j < i ==> ParentCode(attempts[j]) in existingCodes
  {
    if user.None? {
      return Failure(NoUser);
    }
    if username in takenUsernames {
      return Failure(UsernameTaken);
    }
    var code := UniqueParentCode(attempts, existingCodes);
    if code.None? {
      return Failure(NoFreeCode);
    }
    r := Success(Profile(user.value, username, Student, code.value, InitialVirtualCash));
  }
}
