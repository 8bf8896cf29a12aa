/**
 * DefaultConanParameter: one parameter of a process. It is an option (with
 * a short and a long name), a positional argument (with an index) or one of
 * the two output redirections; it may be a flag, optional or required, and
 * has a validator for its values. Its identifier, description, equality and
 * hash are functions of its eight fields.
 */
module Parameters {
  import opened Wrappers
  import opened Faults
  import opened JavaText
  import opened ProcessFailure

  datatype ParamType = OPTION | ARGUMENT | STDOUT_REDIRECTION | STDERR_REDIRECTION

  /** A value of the `ArgValidator` enumeration, identified by its constant name. */
  datatype ArgValidator = ArgValidator(name: string)

  const DEFAULT_VALIDATOR: ArgValidator := ArgValidator("DEFAULT")

  /** The eight fields of a parameter; a null reference is `None`. Subclasses may set any of them. */
  datatype Parameter = Parameter(
    name: Option<string>,
    longName: Option<string>,
    description: Option<string>,
    isFlag: bool,
    paramType: Option<ParamType>,
    isOptional: bool,
    argIndex: int,
    argValidator: Option<ArgValidator>)

  /** The no-argument constructor: empty names and description, an optional OPTION that takes a value, index -1, the default validator. */
  function Empty(): (p: Parameter)
    ensures p.name == Some("") && p.longName == Some("") && p.description == Some("")
    ensures !p.isFlag && p.paramType == Some(OPTION) && p.isOptional
    ensures p.argIndex == -1 && p.argValidator == Some(DEFAULT_VALIDATOR)
  {
    Parameter(Some(""), Some(""), Some(""), false, Some(OPTION), true, -1, Some(DEFAULT_VALIDATOR))
  }

  /**
   * The (name, description, isFlag) constructor: only those three and the
   * OPTION type are set; the other fields keep Java's defaults (null long
   * name and validator, required, index 0).
   */
  function Described(name: Option<string>, description: Option<string>, isFlag: bool): (p: Parameter)
    ensures p.name == name && p.description == description && p.isFlag == isFlag && p.paramType == Some(OPTION)
    ensures p.longName.None? && !p.isOptional && p.argIndex == 0 && p.argValidator.None?
  {
    Parameter(name, None, description, isFlag, Some(OPTION), false, 0, None)
  }

  /** The (name) constructor: the name is also the description, and it is not a flag. */
  function Named(name: Option<string>): (p: Parameter)
    ensures p == Described(name, name, false)
  {
    NamedFlag(name, false)
  }

  /** The (name, isBoolean) constructor: the name is also the description. */
  function NamedFlag(name: Option<string>, isBoolean: bool): (p: Parameter)
    ensures p == Described(name, name, isBoolean)
  {
    Described(name, name, isBoolean)
  }

  /** The (name, description) constructor: not a flag. */
  function NamedDescribed(name: Option<string>, description: Option<string>): (p: Parameter)
    ensures p == Described(name, description, false)
  {
    Described(name, description, false)
  }

  predicate IsBoolean(p: Parameter) { p.isFlag }
  predicate HasArg(p: Parameter) { !p.isFlag }
  predicate IsRequired(p: Parameter) { !p.isOptional }
  predicate IsOption(p: Parameter) { p.paramType == Some(OPTION) }
  predicate IsArgument(p: Parameter) { p.paramType == Some(ARGUMENT) }
  predicate IsStdOutRedirect(p: Parameter) { p.paramType == Some(STDOUT_REDIRECTION) }
  predicate IsStdErrRedirect(p: Parameter) { p.paramType == Some(STDERR_REDIRECTION) }

  /** How many of the four kind tests hold. */
  function KindCount(p: Parameter): (n: nat)
  {
    (if IsOption(p) then 1 else 0) + (if IsArgument(p) then 1 else 0)
    + (if IsStdOutRedirect(p) then 1 else 0) + (if IsStdErrRedirect(p) then 1 else 0)
  }

  /**
   * A parameter with a type is exactly one of option, argument, standard
   * output and standard error redirection; `hasArg` and `isBoolean`, and
   * `isRequired` and `isOptional`, are each other's negation.
   */
  lemma KindsExclusive(p: Parameter)
    ensures p.paramType.Some? <==> KindCount(p) == 1
    ensures p.paramType.None? <==> KindCount(p) == 0
    ensures HasArg(p) != IsBoolean(p) && IsRequired(p) != p.isOptional
  {
    match p.paramType
    case None =>
    case Some(t) => assert t == OPTION || t == ARGUMENT || t == STDOUT_REDIRECTION || t == STDERR_REDIRECTION;
  }

  /** A name that `getIdentifier` accepts: neither null nor empty. */
  predicate Present(s: Option<string>)
  {
    s.Some? && |s.value| > 0
  }

  const OPTION_PREFIX: string := "Option name: "
  const ARGUMENT_PREFIX: string := "Arg index: "
  const STDOUT_IDENTIFIER: string := "Standard Out Redirect"
  const STDERR_IDENTIFIER: string := "Standard Error Redirect"

  /**
   * `getIdentifier()`: an option is named by its long name, or its short
   * name when the long one is null or empty, and without either it is a
   * ConanParameterException; an argument by its index; a redirection by a
   * fixed text. A null type is dereferenced: a NullPointerException.
   */
  function GetIdentifier(p: Parameter): (r: Result<string, Thrown>)
    ensures r.Err? <==> p.paramType.None? || (IsOption(p) && !Present(p.longName) && !Present(p.name))
    ensures r.Err? ==> r.error == (if p.paramType.None? then Runtime(NullPointer) else BadParameter)
    ensures IsOption(p) && r.Ok? ==>
              r.value == OPTION_PREFIX + (if Present(p.longName) then p.longName.value else p.name.value)
    ensures IsStdOutRedirect(p) ==> r == Ok(STDOUT_IDENTIFIER)
    ensures IsStdErrRedirect(p) ==> r == Ok(STDERR_IDENTIFIER)
  {
    match p.paramType
    case None => Err(Runtime(NullPointer))
    case Some(OPTION) =>
      if Present(p.longName) then Ok(OPTION_PREFIX + p.longName.value)
      else if Present(p.name) then Ok(OPTION_PREFIX + p.name.value)
      else Err(BadParameter)
    case Some(ARGUMENT) => Ok(ARGUMENT_PREFIX + IntToString(p.argIndex))
    case Some(STDOUT_REDIRECTION) => Ok(STDOUT_IDENTIFIER)
    case Some(STDERR_REDIRECTION) => Ok(STDERR_IDENTIFIER)
  }

  /** The identifier of an argument gives its index back: what follows the prefix parses as the index. */
  lemma ArgumentIdentifierRoundTrip(p: Parameter)
    requires IsArgument(p) && INT_MIN <= p.argIndex <= INT_MAX
    ensures var id := GetIdentifier(p).value;
      StartsWith(id, ARGUMENT_PREFIX) && ParseInt(id[|ARGUMENT_PREFIX|..]) == Some(p.argIndex)
  {
    var id := GetIdentifier(p).value;
    StartsWithConcat(ARGUMENT_PREFIX, IntToString(p.argIndex));
    assert id[|ARGUMENT_PREFIX|..] == IntToString(p.argIndex);
    ParseIntToString(p.argIndex, INT_MIN, INT_MAX);
  }

  /** Two options have the same identifier exactly when the names `getIdentifier` picks are the same. */
  lemma OptionIdentifierInjective(p: Parameter, q: Parameter)
    requires IsOption(p) && IsOption(q) && GetIdentifier(p).Ok? && GetIdentifier(q).Ok?
    ensures GetIdentifier(p) == GetIdentifier(q) <==>
              (if Present(p.longName) then p.longName else p.name) == (if Present(q.longName) then q.longName else q.name)
  {
    var a := if Present(p.longName) then p.longName.value else p.name.value;
    var b := if Present(q.longName) then q.longName.value else q.name.value;
    if OPTION_PREFIX + a == OPTION_PREFIX + b {
      assert a == (OPTION_PREFIX + a)[|OPTION_PREFIX|..];
      assert b == (OPTION_PREFIX + b)[|OPTION_PREFIX|..];
    }
  }

  /** `Boolean.toString`. */
  function BooleanText(b: bool): string
  {
    if b then "true" else "false"
  }

  /**
   * `toString()`: an option lists its names, description, whether it is
   * required and whether it takes a value; an argument its index,
   * description and whether it is required; a redirection its fixed text.
   * Null strings read "null"; a null type is a NullPointerException.
   */
  function ToString(p: Parameter): (r: Result<string, Thrown>)
    ensures r.Err? <==> p.paramType.None?
    ensures r.Err? ==> r.error == Runtime(NullPointer)
  {
    match p.paramType
    case None => Err(Runtime(NullPointer))
    case Some(OPTION) =>
      Ok("Short name: " + OrNull(p.name) + "; Long name: " + OrNull(p.longName) + "; Description: " + OrNull(p.description)
         + "; Is required: " + BooleanText(IsRequired(p)) + "; Arg required: " + BooleanText(HasArg(p)))
    case Some(ARGUMENT) =>
      Ok(ARGUMENT_PREFIX + IntToString(p.argIndex) + "; Description: " + OrNull(p.description)
         + "; Is required: " + BooleanText(IsRequired(p)))
    case Some(STDOUT_REDIRECTION) => Ok(STDOUT_IDENTIFIER)
    case Some(STDERR_REDIRECTION) => Ok(STDERR_IDENTIFIER)
  }

  /**
   * Apart from options, the description of a parameter begins with its
   * identifier; for a redirection the two are the same text.
   */
  lemma ToStringBeginsWithIdentifier(p: Parameter)
    requires p.paramType.Some? && !IsOption(p)
    ensures GetIdentifier(p).Ok? && ToString(p).Ok? && StartsWith(ToString(p).value, GetIdentifier(p).value)
    ensures !IsArgument(p) ==> ToString(p) == GetIdentifier(p)
  {
    if IsArgument(p) {
      var id := ARGUMENT_PREFIX + IntToString(p.argIndex);
      var rest := "; Description: " + OrNull(p.description) + "; Is required: " + BooleanText(IsRequired(p));
      assert ToString(p).value == id + rest;
      StartsWithConcat(id, rest);
    } else {
      StartsWithConcat(GetIdentifier(p).value, "");
      assert GetIdentifier(p).value + "" == GetIdentifier(p).value;
    }
  }

  /**
   * `equals(o)`: false for null (and for objects of other classes, which
   * are not modelled); otherwise all eight fields are compared.
   */
  function Equals(p: Parameter, o: Option<Parameter>): (r: bool)
    ensures r <==> o == Some(p)
  {
    match o
    case None => false
    case Some(q) =>
      q.name == p.name && q.longName == p.longName && q.description == p.description && q.isFlag == p.isFlag
      && q.paramType == p.paramType && q.isOptional == p.isOptional && q.argIndex == p.argIndex
      && q.argValidator == p.argValidator
  }

  /** `equals` is reflexive, symmetric and transitive. */
  lemma EqualsIsEquivalence(p: Parameter, q: Parameter, r: Parameter)
    ensures Equals(p, Some(p))
    ensures Equals(p, Some(q)) == Equals(q, Some(p))
    ensures Equals(p, Some(q)) && Equals(q, Some(r)) ==> Equals(p, Some(r))
  {
  }

  /** `String.hashCode()`: `s[0]*31^(n-1) + ... + s[n-1]` in `int` arithmetic. */
  function StringHash(s: string): (h: int)
    ensures INT_MIN <= h <= INT_MAX
    decreases |s|
  {
    if |s| == 0 then 0 else Wrap32(31 * StringHash(s[..|s| - 1]) + s[|s| - 1] as int)
  }

  /** Appending a character multiplies the hash by 31 and adds the character, wrapped to `int`. */
  lemma StringHashStep(s: string, c: char, h: int)
    requires StringHash(s) == h
    ensures StringHash(s + [c]) == Wrap32(31 * h + c as int)
  {
    assert (s + [c])[..|s + [c]| - 1] == s;
  }

  /**
   * Known values of Java's `String.hashCode`: "" hashes to 0, "ab" to
   * 31 * 97 + 98, and "zzzzzz" overflows and wraps to a negative `int`.
   */
  lemma {:induction false} StringHashExamples()
    ensures StringHash("") == 0
    ensures StringHash("ab") == 3105
    ensures StringHash("zzzzzz") == -685785664
  {
    assert StringHash("") == 0;
    HashOfAb();
    HashOfSixZs();
  }

  lemma HashOfAb()
    ensures StringHash("ab") == 3105
  {
    StringHashStep("", 'a', 0);
    assert "" + ['a'] == "a";
    StringHashStep("a", 'b', 97);
    assert "a" + ['b'] == "ab";
  }

  /** Below `2^31` up to five characters; the sixth multiplication wraps. */
  lemma HashOfSixZs()
    ensures StringHash("zzzzzz") == -685785664
  {
    HashOfThreeZs();
    StringHashStep("zzz", 'z', 121146);
    assert "zzz" + ['z'] == "zzzz";
    StringHashStep("zzzz", 'z', 3755648);
    assert "zzzz" + ['z'] == "zzzzz";
    StringHashStep("zzzzz", 'z', 116425210);
    assert "zzzzz" + ['z'] == "zzzzzz";
  }

  lemma HashOfThreeZs()
    ensures StringHash("zzz") == 121146
  {
    StringHashStep("", 'z', 0);
    assert "" + ['z'] == "z";
    StringHashStep("z", 'z', 122);
    assert "z" + ['z'] == "zz";
    StringHashStep("zz", 'z', 3904);
    assert "zz" + ['z'] == "zzz";
  }

  /** One `append` of `HashCodeBuilder(17, 31)`: a null adds nothing after the multiplication. */
  function Append(total: int, h: Option<int>): (r: int)
    ensures INT_MIN <= r <= INT_MAX
  {
    if h.None? then Wrap32(total * 31) else Wrap32(total * 31 + h.value)
  }

  /** `HashCodeBuilder.append(boolean)`: 0 for true, 1 for false. */
  function BooleanHash(b: bool): int
  {
    if b then 0 else 1
  }

  function OptionHash(s: Option<string>): Option<int>
  {
    if s.None? then None else Some(StringHash(s.value))
  }

  /**
   * `hashCode()`: the same eight fields, folded from 17 with multiplier 31.
   * The enumerations hash by identity, given here as `typeHash` and
   * `validatorHash`.
   */
  function HashCode(p: Parameter, typeHash: ParamType -> int, validatorHash: ArgValidator -> int): (h: int)
    ensures INT_MIN <= h <= INT_MAX
  {
    var t := Append(17, OptionHash(p.name));
    var t := Append(t, OptionHash(p.longName));
    var t := Append(t, OptionHash(p.description));
    var t := Append(t, Some(BooleanHash(p.isFlag)));
    var t := Append(t, if p.paramType.None? then None else Some(typeHash(p.paramType.value)));
    var t := Append(t, Some(BooleanHash(p.isOptional)));
    var t := Append(t, Some(Wrap32(p.argIndex)));
    Append(t, if p.argValidator.None? then None else Some(validatorHash(p.argValidator.value)))
  }

  /** Equal parameters have equal hash codes. */
  lemma EqualsHashCode(p: Parameter, q: Parameter, typeHash: ParamType -> int, validatorHash: ArgValidator -> int)
    requires Equals(p, Some(q))
    ensures HashCode(p, typeHash, validatorHash) == HashCode(q, typeHash, validatorHash)
  {
  }
}
