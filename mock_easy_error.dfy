/**
 * The error taxonomy of the mocking engine: four kind tags, the message
 * template selected by a kind, and the error value that carries the module
 * and function where a scripting or invocation rule was broken.
 */
module MockEasyErrors {

  // The four kind tags, as the string constants attached to the error class.
  const INVOCATION_WILL_NEVER_BE_REACHED: string := "invocation will never be reached"
  const NOT_DEFINED: string := "not defined"
  const ILLEGAL_INVOCATION: string := "illegal invocation"
  const INCORRECT_TIME_DEFINITION: string := "incorrect time definition"

  const GENERAL_ERROR: string := "General Error"

  /** One of the four tags the message switch has a branch for. */
  predicate IsKind(kind: string) {
    kind == INVOCATION_WILL_NEVER_BE_REACHED || kind == NOT_DEFINED ||
    kind == ILLEGAL_INVOCATION || kind == INCORRECT_TIME_DEFINITION
  }

  /** The three kinds whose message names the offending module and function. */
  predicate NamesLocation(kind: string) {
    kind == INVOCATION_WILL_NEVER_BE_REACHED || kind == NOT_DEFINED || kind == ILLEGAL_INVOCATION
  }

  /** The message selected by `kind`; an unknown tag falls to the default branch. */
  function GetMessage(kind: string, moduleName: string, funcName: string): (msg: string)
    ensures msg == GENERAL_ERROR <==> !IsKind(kind)
  {
    if kind == INVOCATION_WILL_NEVER_BE_REACHED then
      "[mockeasy] always() was defined for " + moduleName + "." + funcName + " and this invocation will not be reached"
    else if kind == NOT_DEFINED then
      "[mockeasy] bogus function " + moduleName + "." + funcName + " was not defined for this invocation"
    else if kind == ILLEGAL_INVOCATION then
      "[mockeasy] bogus function " + moduleName + "." + funcName + " should not have been invoked"
    else if kind == INCORRECT_TIME_DEFINITION then
      "times must be equal or greater than 1"
    else
      GENERAL_ERROR
  }

  /** The text a location-naming message puts before `<module>.<function>`. */
  function Lead(kind: string): string
    requires NamesLocation(kind)
  {
    if kind == INVOCATION_WILL_NEVER_BE_REACHED then "[mockeasy] always() was defined for "
    else "[mockeasy] bogus function "
  }

  /** The text a location-naming message puts after `<module>.<function>`. */
  function Tail(kind: string): string
    requires NamesLocation(kind)
  {
    if kind == INVOCATION_WILL_NEVER_BE_REACHED then " and this invocation will not be reached"
    else if kind == NOT_DEFINED then " was not defined for this invocation"
    else " should not have been invoked"
  }

  /**
   * The error value. The kind tag itself is not stored: only the message
   * derived from it, and the module and function names as given.
   */
  datatype MockEasyError = MockEasyError(message: string, moduleName: string, funcName: string)
  {
    /** `<module>.<function>`: the location of the broken rule. */
    function Where(): (w: string)
      ensures |w| == |moduleName| + 1 + |funcName|
      ensures w[..|moduleName|] == moduleName && w[|moduleName|] == '.' && w[|moduleName| + 1..] == funcName
    {
      moduleName + "." + funcName
    }

    function ToString(): string {
      message
    }
  }

  /** The constructor: the message comes from the kind, the names are stored unchanged. */
  function Create(kind: string, moduleName: string, funcName: string): (e: MockEasyError)
    ensures e.moduleName == moduleName && e.funcName == funcName
    ensures e.ToString() == GetMessage(kind, moduleName, funcName)
  {
    MockEasyError(GetMessage(kind, moduleName, funcName), moduleName, funcName)
  }

  /** The four kind tags are pairwise distinct, so each selects one branch. */
  lemma KindsDistinct()
    ensures INVOCATION_WILL_NEVER_BE_REACHED != NOT_DEFINED
    ensures INVOCATION_WILL_NEVER_BE_REACHED != ILLEGAL_INVOCATION
    ensures INVOCATION_WILL_NEVER_BE_REACHED != INCORRECT_TIME_DEFINITION
    ensures NOT_DEFINED != ILLEGAL_INVOCATION
    ensures NOT_DEFINED != INCORRECT_TIME_DEFINITION
    ensures ILLEGAL_INVOCATION != INCORRECT_TIME_DEFINITION
  {
  }

  /** A location-naming message is its kind's lead, then `Where()`, then its kind's tail. */
  lemma MessageEmbedsLocation(kind: string, moduleName: string, funcName: string)
    requires NamesLocation(kind)
    ensures var e := Create(kind, moduleName, funcName);
            e.message == Lead(kind) + e.Where() + Tail(kind)
  {
    var w := moduleName + "." + funcName;
    KindsDistinct();
    if kind == INVOCATION_WILL_NEVER_BE_REACHED {
      assert "[mockeasy] always() was defined for " + moduleName + "." + funcName
             == "[mockeasy] always() was defined for " + w;
    } else {
      assert "[mockeasy] bogus function " + moduleName + "." + funcName
             == "[mockeasy] bogus function " + w;
    }
  }

  /** The incorrect-time-definition message does not depend on the names. */
  lemma IncorrectTimeMessageIsConstant(m1: string, f1: string, m2: string, f2: string)
    ensures GetMessage(INCORRECT_TIME_DEFINITION, m1, f1) == GetMessage(INCORRECT_TIME_DEFINITION, m2, f2)
            == "times must be equal or greater than 1"
  {
    KindsDistinct();
  }

  /** The characters that tell the lead and tail texts apart. */
  lemma TemplateMarks()
    ensures Lead(INVOCATION_WILL_NEVER_BE_REACHED)[11] == 'a'
    ensures Lead(NOT_DEFINED)[11] == 'b' && Lead(ILLEGAL_INVOCATION)[11] == 'b'
    ensures var t := Tail(NOT_DEFINED); t[|t| - 1] == 'n'
    ensures var t := Tail(ILLEGAL_INVOCATION); t[|t| - 1] == 'd'
  {
  }

  /** Location-naming messages of different kinds differ, whatever the names. */
  lemma LocationMessagesDiffer(k1: string, m1: string, f1: string, k2: string, m2: string, f2: string)
    requires NamesLocation(k1) && NamesLocation(k2) && k1 != k2
    ensures GetMessage(k1, m1, f1) != GetMessage(k2, m2, f2)
  {
    MessageEmbedsLocation(k1, m1, f1);
    MessageEmbedsLocation(k2, m2, f2);
    KindsDistinct();
    TemplateMarks();
    var w1, w2 := Create(k1, m1, f1).Where(), Create(k2, m2, f2).Where();
    var l1, l2, t1, t2 := Lead(k1), Lead(k2), Tail(k1), Tail(k2);
    var msg1, msg2 := l1 + w1 + t1, l2 + w2 + t2;
    assert GetMessage(k1, m1, f1) == msg1;
    assert GetMessage(k2, m2, f2) == msg2;
    if k1 == INVOCATION_WILL_NEVER_BE_REACHED || k2 == INVOCATION_WILL_NEVER_BE_REACHED {
      assert l1[11] != l2[11];
      assert msg1[11] == l1[11];
      assert msg2[11] == l2[11];
    } else {
      assert t1[|t1| - 1] != t2[|t2| - 1];
      assert msg1[|msg1| - 1] == t1[|t1| - 1];
      assert msg2[|msg2| - 1] == t2[|t2| - 1];
    }
  }

  /**
   * Equal messages mean equal kinds: comparing messages, as the test suite
   * does, identifies which rule was broken whatever the names are.
   */
  lemma MessageIdentifiesKind(k1: string, m1: string, f1: string, k2: string, m2: string, f2: string)
    requires IsKind(k1) && IsKind(k2)
    requires GetMessage(k1, m1, f1) == GetMessage(k2, m2, f2)
    ensures k1 == k2
  {
    KindsDistinct();
    if k1 != k2 && NamesLocation(k1) && NamesLocation(k2) {
      LocationMessagesDiffer(k1, m1, f1, k2, m2, f2);
    }
  }

  /** For a location-naming kind, the message determines `<module>.<function>`. */
  lemma MessageIdentifiesLocation(kind: string, m1: string, f1: string, m2: string, f2: string)
    requires NamesLocation(kind)
    requires GetMessage(kind, m1, f1) == GetMessage(kind, m2, f2)
    ensures Create(kind, m1, f1).Where() == Create(kind, m2, f2).Where()
  {
    MessageEmbedsLocation(kind, m1, f1);
    MessageEmbedsLocation(kind, m2, f2);
    var msg := GetMessage(kind, m1, f1);
    var w1, w2 := Create(kind, m1, f1).Where(), Create(kind, m2, f2).Where();
    var lead, tail := Lead(kind), Tail(kind);
    assert |w1| == |w2|;
    assert w1 == msg[|lead|..|lead| + |w1|];
    assert w2 == msg[|lead|..|lead| + |w2|];
  }
}
