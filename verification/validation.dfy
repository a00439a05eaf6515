/** validateParams: the checks the `year` parameter of TaxDeclarationYear.Load
    must pass before anything is read or written. The parameters are the
    API call's string-valued parameter array. */
module Validation {
  import opened Wrappers
  import Php

  const MissingYear := "Year is a mandatory param but is not found in passed params"
  const EmptyYear := "Param year can not be empty"
  const YearLength := "Year has to have 4 digits"
  const YearNotNumeric := "Year has to be numeric"

  /** The messages of every check the parameters fail, in the order in which
      validateParams runs its checks. Without a `year` key the other three
      checks have nothing to look at. */
  function FailedChecks(params: map<string, string>): seq<string> {
    if "year" !in params then [MissingYear]
    else
      var year := params["year"];
      (if Php.IsEmpty(year) then [EmptyYear] else [])
      + (if Php.StrLen(year) != 4 then [YearLength] else [])
      + (if Php.IsNumeric(year) then [] else [YearNotNumeric])
  }

  /** The validated year, or the message of the exception thrown. */
  function ValidateParams(params: map<string, string>): (r: Result<string, string>)
    ensures r.Success? <==>
      "year" in params && !Php.IsEmpty(params["year"]) && Php.StrLen(params["year"]) == 4
      && Php.IsNumeric(params["year"])
    ensures r.Success? <==> FailedChecks(params) == []
    ensures r.Success? ==> r.value == params["year"]
    ensures r.Failure? ==> r.error == FailedChecks(params)[0]
  {
    if "year" !in params then Failure(MissingYear)
    else if Php.IsEmpty(params["year"]) then Failure(EmptyYear)
    else if Php.StrLen(params["year"]) != 4 then Failure(YearLength)
    else if !Php.IsNumeric(params["year"]) then Failure(YearNotNumeric)
    else Success(params["year"])
  }

  /** Every four-digit year is accepted as it is. */
  lemma FourDigitYearAccepted(params: map<string, string>)
    requires "year" in params && |params["year"]| == 4 && Php.AllDigits(params["year"])
    ensures ValidateParams(params) == Success(params["year"])
  {
    Php.DigitsAreNumeric(params["year"]);
  }

  /** "abc" fails both the length and the numeric check; the length check
      runs first and decides the message. */
  lemma ShortWordFailsOnLength()
    ensures FailedChecks(map["year" := "abc"]) == [YearLength, YearNotNumeric]
    ensures ValidateParams(map["year" := "abc"]) == Failure(YearLength)
  {
    var s := "abc";
    assert Php.StrLen(s) == 3;
    assert !Php.IsNumeric(s) by {
      Php.PlainNumeric(s);
      assert Php.FindFirst(s, 'e', 'E') == 3;
      assert Php.FindFirst(s, '.', '.') == 3;
      assert s[..3] == s && !Php.IsDigit(s[0]);
    }
  }

  /** Five digits fail on length, not on form. */
  lemma FiveDigitsFailOnLength()
    ensures ValidateParams(map["year" := "12345"]) == Failure(YearLength)
  {
    assert Php.StrLen("12345") == 5;
  }

  /** "0" is empty to PHP, so it is refused as empty rather than as short. */
  lemma ZeroIsEmpty()
    ensures ValidateParams(map["year" := "0"]) == Failure(EmptyYear)
  {
  }

  /** Without a `year` key the first check fails whatever else is passed. */
  lemma MissingYearReported(params: map<string, string>)
    requires "year" !in params
    ensures ValidateParams(params) == Failure(MissingYear)
  {
  }

  /** The numeric check is looser than "four digits": an exponent form of
      length four passes validation. */
  lemma ExponentYearAccepted()
    ensures ValidateParams(map["year" := "1e10"]) == Success("1e10")
  {
    var s := "1e10";
    assert Php.StrLen(s) == 4;
    assert Php.IsNumeric(s) by {
      Php.PlainNumeric(s);
      assert Php.FindFirst(s, 'e', 'E') == 1;
      assert s[..1] == "1" && s[1..] == "e10";
      assert Php.DropSign("e10"[1..]) == "10";
      assert Php.IsMantissa("1") by { assert Php.FindFirst("1", '.', '.') == 1; }
    }
  }

  /** A decimal form of length four passes validation. */
  lemma DecimalYearAccepted()
    ensures ValidateParams(map["year" := "12.5"]) == Success("12.5")
  {
    var s := "12.5";
    assert Php.StrLen(s) == 4;
    assert Php.IsNumeric(s) by {
      Php.PlainNumeric(s);
      assert Php.FindFirst(s, 'e', 'E') == 4;
      assert s[..4] == s && s[4..] == [];
      assert Php.IsMantissa(s) by {
        assert Php.FindFirst(s, '.', '.') == 2;
        assert Php.AllDigits(s[..2]) by { assert s[..2] == "12"; }
        assert Php.AllDigits(s[3..]) by { assert s[3..] == "5"; }
      }
    }
  }
}
