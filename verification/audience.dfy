/** The `aud` claim. It is normally a set of recipients, but some
    applications expect a single string, so both forms exist, and a mode
    flag on the claim set decides which one is active. */
module Audience {
  import opened Wrappers
  import opened Errors

  datatype Audiences = AsSet(members: set<string>) | AsString(text: string)

  function IsSet(a: Audiences): (r: bool)
    ensures r <==> exists s :: a == AsSet(s)
  {
    match a
    case AsSet(_) => true
    case _ => false
  }

  /** The string form is exactly "not the set form". */
  function IsString(a: Audiences): (r: bool)
    ensures r <==> exists t :: a == AsString(t)
    ensures r != IsSet(a)
  {
    !IsSet(a)
  }

  /** A set with one element is that element's singleton. */
  lemma SingletonShape(s: set<string>, x: string)
    requires |s| == 1 && x in s
    ensures s == {x}
  {
    var rest := s - {x};
    assert |rest| == |s| - |{x}|;
    assert rest == {};
  }

  /** The element of a set of at most one element, or the empty string for
      the empty set (`iter().next()` followed by `unwrap_or_default()`). */
  function SoleMember(s: set<string>): (r: string)
    requires |s| <= 1
    ensures s == {} ==> r == ""
    ensures s != {} ==> s == {r}
  {
    if s == {} then ""
    else
      var x :| x in s;
      SingletonShape(s, x);
      x
  }

  /** Set form to string form. Fails when the set has more than one
      element, which a single string cannot carry. */
  function SetToString(s: set<string>): (r: Result<Audiences, JWTError>)
    ensures r.Failure? <==> |s| > 1
    ensures r.Failure? ==> r.error == TooManyAudiences
    ensures r.Success? ==> r.value.AsString?
    ensures r.Success? && s == {} ==> r.value.text == ""
    ensures r.Success? && s != {} ==> s == {r.value.text}
  {
    if |s| > 1 then Failure(TooManyAudiences)
    else Success(AsString(SoleMember(s)))
  }

  /** String form to set form. Never fails; the empty string stands for
      no audience at all. */
  function StringToSet(t: string): (r: Audiences)
    ensures r.AsSet?
    ensures t == "" ==> r.members == {}
    ensures t != "" ==> r.members == {t}
  {
    if t == "" then AsSet({}) else AsSet({t})
  }

  /** The core of the claim set's audience conversion: bring an optional
      audience value into the representation `asString` selects. A value
      already in that representation, or no value, is left as it is. */
  function Reformat(aud: Option<Audiences>, asString: bool): (r: Result<Option<Audiences>, JWTError>)
    ensures r.Failure? <==> asString && aud.Some? && aud.value.AsSet? && |aud.value.members| > 1
    ensures r.Failure? ==> r.error == TooManyAudiences
    ensures r.Success? ==> (r.value.None? <==> aud.None?)
    ensures r.Success? && r.value.Some? ==> IsString(r.value.value) == asString
    ensures aud.Some? && IsString(aud.value) == asString ==> r == Success(aud)
    ensures asString && aud.Some? && aud.value.AsSet? && |aud.value.members| <= 1 ==>
      && r.Success? && r.value.value.AsString?
      && (aud.value.members == {} ==> r.value.value.text == "")
      && (aud.value.members != {} ==> aud.value.members == {r.value.value.text})
    ensures !asString && aud.Some? && aud.value.AsString? ==>
      r == Success(Some(AsSet(if aud.value.text == "" then {} else {aud.value.text})))
  {
    if asString then
      match aud
      case None => Success(None)
      case Some(AsString(_)) => Success(aud)
      case Some(AsSet(s)) =>
        var a :- SetToString(s);
        Success(Some(a))
    else
      match aud
      case None => Success(None)
      case Some(AsSet(_)) => Success(aud)
      case Some(AsString(t)) => Success(Some(StringToSet(t)))
  }

  /** Converting a second time changes nothing. */
  lemma ReformatIdempotent(aud: Option<Audiences>, asString: bool)
    requires Reformat(aud, asString).Success?
    ensures Reformat(Reformat(aud, asString).value, asString) == Reformat(aud, asString)
  {
  }

  /** Set form through string form and back: defined for at most one
      element, and it gives back the original set exactly when that set is
      not `{""}` (whose string form is the empty string, read back as no
      audience). */
  lemma SetRoundTrip(s: set<string>)
    requires |s| <= 1
    ensures Reformat(Some(AsSet(s)), true).Success?
    ensures var back := Reformat(Reformat(Some(AsSet(s)), true).value, false);
            back.Success? && (back.value == Some(AsSet(s)) <==> s != {""})
  {
  }

  /** String form through set form and back always gives back the string. */
  lemma StringRoundTrip(t: string)
    ensures Reformat(Some(AsString(t)), false).Success?
    ensures Reformat(Reformat(Some(AsString(t)), false).value, true) == Success(Some(AsString(t)))
  {
  }

  /** The empty set and the empty string correspond to each other. */
  lemma EmptyCorrespondence()
    ensures Reformat(Some(AsSet({})), true) == Success(Some(AsString("")))
    ensures Reformat(Some(AsString("")), false) == Success(Some(AsSet({})))
  {
  }

  /** The recipients the validator reads off an audience value: a string
      stands for its own one-element set, the empty string included. */
  function Recipients(a: Audiences): (s: set<string>)
    ensures a.AsSet? ==> s == a.members
    ensures a.AsString? ==> s == {a.text}
  {
    match a
    case AsSet(s) => s
    case AsString(t) => {t}
  }
}
