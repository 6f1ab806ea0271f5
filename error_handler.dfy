/**
  The server's central error middleware (newErrorHandler.js): an ordered list of rules
  that maps a thrown error to an HTTP status, a message and optional details, and the
  404 handler for unknown routes. Logging is left out. Absent (falsy) fields of the error
  are 0 for numbers and "" for strings; `errors` and `keyValue` are Options because
  reading an absent one makes the handler itself throw.
*/
module ErrorHandler {
  import opened Wrappers

  const DefaultMessage: string := "Something went wrong"
  const FileTooLargeMessage: string := "File too large. Maximum size is 5MB."
  const DuplicateMessage: string := "A record with this information already exists"
  const DuplicateKeyCode: int := 11000
  const DefaultRetryAfter: int := 60

  /** `err.code`: absent, a string code (multer) or a numeric code (MongoDB). */
  datatype Code = NoCode | TextCode(text: string) | NumericCode(n: int)

  /** The fields of a thrown error that the handler reads. */
  datatype AppErr = AppErr(
    name: string,
    statusCode: int,
    message: string,
    code: Code,
    path: string,
    value: string,
    errors: Option<seq<string>>,
    keyValueFields: Option<seq<string>>,
    stack: string,
    retryAfter: int)

  /** The JSON body of the error response. */
  datatype Body = Body(success: bool, status: string, message: string, errors: Option<seq<string>>,
                       stack: Option<string>)

  /** The status line, the Retry-After header if one is set, and the body. */
  datatype Response = Response(statusCode: int, retryAfter: Option<int>, body: Body)

  /** The handler itself throws a TypeError (Object.values / Object.keys of an absent field). */
  datatype Fault = HandlerTypeError

  /** The rules of the handler, in the order they are applied. */
  datatype Rule = ValidationRule | CastRule | FileSizeRule | DuplicateRule | InvalidTokenRule | ExpiredTokenRule

  const RuleOrder: seq<Rule> :=
    [ValidationRule, CastRule, FileSizeRule, DuplicateRule, InvalidTokenRule, ExpiredTokenRule]

  predicate Matches(rule: Rule, err: AppErr) {
    match rule
    case ValidationRule => err.name == "ValidationError"
    case CastRule => err.name == "CastError"
    case FileSizeRule => err.code == TextCode("LIMIT_FILE_SIZE")
    case DuplicateRule => err.code == NumericCode(DuplicateKeyCode)
    case InvalidTokenRule => err.name == "JsonWebTokenError"
    case ExpiredTokenRule => err.name == "TokenExpiredError"
  }

  /** A rule that reads a field the error lacks throws. */
  predicate Faults(rule: Rule, err: AppErr) {
    match rule
    case ValidationRule => err.errors.None?
    case DuplicateRule => err.keyValueFields.None?
    case _ => false
  }

  /** The message of the duplicate-key rule: names the first key of `keyValue` when it is truthy. */
  function DuplicateVerdict(fields: seq<string>): string {
    if |fields| > 0 && fields[0] != "" then "A record with this " + fields[0] + " already exists"
    else DuplicateMessage
  }

  /** The status code and message a matching rule sets. */
  function Verdict(rule: Rule, err: AppErr): (int, string)
    requires !Faults(rule, err)
  {
    match rule
    case ValidationRule => (422, "Validation Error")
    case CastRule => (400, "Invalid " + err.path + ": " + err.value)
    case FileSizeRule => (400, FileTooLargeMessage)
    case DuplicateRule => (409, DuplicateVerdict(err.keyValueFields.value))
    case InvalidTokenRule => (401, "Invalid token")
    case ExpiredTokenRule => (401, "Token expired")
  }

  /** The last rule of `rules` that matches `err`: a later match overrides an earlier one. */
  function LastMatch(rules: seq<Rule>, err: AppErr): (r: Option<Rule>)
    ensures r.Some? ==> r.value in rules && Matches(r.value, err)
    ensures r.None? <==> forall i :: 0 <= i < |rules| ==> !Matches(rules[i], err)
  {
    if rules == [] then None
    else if Matches(rules[|rules| - 1], err) then Some(rules[|rules| - 1])
    else
      var r := LastMatch(rules[..|rules| - 1], err);
      assert forall i :: 0 <= i < |rules| - 1 ==> rules[..|rules| - 1][i] == rules[i];
      r
  }

  /** The rule that decides, read from the end of the rule list. */
  lemma {:induction false} LastMatchUnrolled(err: AppErr)
    ensures LastMatch(RuleOrder, err) ==
      if Matches(ExpiredTokenRule, err) then Some(ExpiredTokenRule)
      else if Matches(InvalidTokenRule, err) then Some(InvalidTokenRule)
      else if Matches(DuplicateRule, err) then Some(DuplicateRule)
      else if Matches(FileSizeRule, err) then Some(FileSizeRule)
      else if Matches(CastRule, err) then Some(CastRule)
      else if Matches(ValidationRule, err) then Some(ValidationRule)
      else None
  {
    var s1 := [ValidationRule];
    var s2 := s1 + [CastRule];
    var s3 := s2 + [FileSizeRule];
    var s4 := s3 + [DuplicateRule];
    var s5 := s4 + [InvalidTokenRule];
    var s6 := s5 + [ExpiredTokenRule];
    assert s1[..0] == [] && s2[..1] == s1 && s3[..2] == s2 && s4[..3] == s3 && s5[..4] == s4 && s6[..5] == s5;
    assert LastMatch(s1, err) == if Matches(ValidationRule, err) then Some(ValidationRule) else None;
    assert LastMatch(s2, err) == if Matches(CastRule, err) then Some(CastRule) else LastMatch(s1, err);
    assert LastMatch(s3, err) == if Matches(FileSizeRule, err) then Some(FileSizeRule) else LastMatch(s2, err);
    assert LastMatch(s4, err) == if Matches(DuplicateRule, err) then Some(DuplicateRule) else LastMatch(s3, err);
    assert LastMatch(s5, err) == if Matches(InvalidTokenRule, err) then Some(InvalidTokenRule) else LastMatch(s4, err);
    assert LastMatch(s6, err) == if Matches(ExpiredTokenRule, err) then Some(ExpiredTokenRule) else LastMatch(s5, err);
    assert s6 == RuleOrder;
  }

  /** Some matching rule reads a field the error lacks. */
  predicate HandlerThrows(err: AppErr) {
    exists i :: 0 <= i < |RuleOrder| && Matches(RuleOrder[i], err) && Faults(RuleOrder[i], err)
  }

  /**
    The reference meaning of the handler: the defaults, overridden by the last matching rule;
    the validation details whenever the validation rule matched; the status word, the stack
    and the Retry-After header as the response builder derives them.
  */
  function Respond(err: AppErr, development: bool): Result<Response, Fault> {
    if HandlerThrows(err) then Failure(HandlerTypeError)
    else
      var verdict := match LastMatch(RuleOrder, err)
        case None => (if err.statusCode != 0 then err.statusCode else 500,
                      if err.message != "" then err.message else DefaultMessage)
        case Some(rule) => Verdict(rule, err);
      var statusCode := verdict.0;
      Success(Response(
        statusCode,
        if err.statusCode == 429 then Some(if err.retryAfter != 0 then err.retryAfter else DefaultRetryAfter) else None,
        Body(false,
             if statusCode >= 500 then "error" else "fail",
             verdict.1,
             if err.name == "ValidationError" then err.errors else None,
             if development && statusCode >= 500 then Some(err.stack) else None)))
  }

  /** errorHandler, rule by rule as written: each matching rule reassigns the status and message. */
  method HandleError(err: AppErr, development: bool) returns (r: Result<Response, Fault>)
    ensures r == Respond(err, development)
  {
    var statusCode := if err.statusCode != 0 then err.statusCode else 500;
    var message := if err.message != "" then err.message else DefaultMessage;
    var errorDetails: Option<seq<string>> := None;

    if err.name == "ValidationError" {
      if err.errors.None? {
        assert Matches(RuleOrder[0], err) && Faults(RuleOrder[0], err);
        return Failure(HandlerTypeError);
      }
      statusCode := 422;
      message := "Validation Error";
      errorDetails := err.errors;
    }
    if err.name == "CastError" {
      statusCode := 400;
      message := "Invalid " + err.path + ": " + err.value;
    }
    if err.code == TextCode("LIMIT_FILE_SIZE") {
      statusCode := 400;
      message := FileTooLargeMessage;
    }
    if err.code == NumericCode(DuplicateKeyCode) {
      statusCode := 409;
      message := DuplicateMessage;
      if err.keyValueFields.None? {
        assert Matches(RuleOrder[3], err) && Faults(RuleOrder[3], err);
        return Failure(HandlerTypeError);
      }
      var fields := err.keyValueFields.value;
      if |fields| > 0 && fields[0] != "" {
        message := "A record with this " + fields[0] + " already exists";
      }
    }
    if err.name == "JsonWebTokenError" {
      statusCode := 401;
      message := "Invalid token";
    }
    if err.name == "TokenExpiredError" {
      statusCode := 401;
      message := "Token expired";
    }
    LastMatchUnrolled(err);
    assert !HandlerThrows(err) by {
      forall i | 0 <= i < |RuleOrder| ensures !(Matches(RuleOrder[i], err) && Faults(RuleOrder[i], err)) {
      }
    }
    var retryAfter: Option<int> := None;
    if err.statusCode == 429 {
      retryAfter := Some(if err.retryAfter != 0 then err.retryAfter else DefaultRetryAfter);
    }
    var stack: Option<string> := if development && statusCode >= 500 then Some(err.stack) else None;
    r := Success(Response(statusCode, retryAfter,
                          Body(false, if statusCode >= 500 then "error" else "fail", message, errorDetails, stack)));
  }

  /** notFoundHandler: a plain Error carrying status 404 and the requested URL. */
  function NotFoundError(originalUrl: string): (e: AppErr)
    ensures e.statusCode == 404 && e.message == "Not Found - " + originalUrl
    ensures forall rule :: !Matches(rule, e)
  {
    AppErr("Error", 404, "Not Found - " + originalUrl, NoCode, "", "", None, None, "", 0)
  }

  /** The handler throws exactly when a validation error lacks `errors` or a duplicate-key error lacks `keyValue`. */
  lemma ThrowsExactly(err: AppErr, development: bool)
    ensures Respond(err, development).Failure? <==>
              (err.name == "ValidationError" && err.errors.None?)
              || (err.code == NumericCode(DuplicateKeyCode) && err.keyValueFields.None?)
  {
    if err.name == "ValidationError" && err.errors.None? {
      assert Matches(RuleOrder[0], err) && Faults(RuleOrder[0], err);
    }
    if err.code == NumericCode(DuplicateKeyCode) && err.keyValueFields.None? {
      assert Matches(RuleOrder[3], err) && Faults(RuleOrder[3], err);
    }
  }

  /**
    Every response body has `success: false`; its `status` is "error" iff the final status
    code is at least 500; the stack is sent only in development and only for such codes; the
    validation details are sent iff the error is a ValidationError, whatever rule decided.
  */
  lemma BodyShape(err: AppErr, development: bool)
    requires Respond(err, development).Success?
    ensures var resp := Respond(err, development).value;
            && !resp.body.success
            && (resp.body.status == "error" <==> resp.statusCode >= 500)
            && (resp.body.status == "fail" <==> resp.statusCode < 500)
            && (resp.body.stack.Some? <==> development && resp.statusCode >= 500)
            && (resp.body.errors.Some? <==> err.name == "ValidationError")
            && (resp.body.errors.Some? ==> resp.body.errors == err.errors)
  {
    ThrowsExactly(err, development);
  }

  /** With no rule matching, the status and message default to the error's own, else 500 and a fixed text. */
  lemma Defaults(err: AppErr, development: bool)
    requires forall rule :: !Matches(rule, err)
    ensures Respond(err, development).Success?
    ensures var resp := Respond(err, development).value;
            && resp.statusCode == (if err.statusCode != 0 then err.statusCode else 500)
            && resp.body.message == (if err.message != "" then err.message else DefaultMessage)
  {
    LastMatchUnrolled(err);
    ThrowsExactly(err, development);
  }

  /** A ValidationError is a 422 "Validation Error" listing its sub-error messages, unless a code rule overrides it. */
  lemma ValidationErrorIs422(err: AppErr, development: bool)
    requires err.name == "ValidationError" && err.errors.Some?
    requires err.code != TextCode("LIMIT_FILE_SIZE") && err.code != NumericCode(DuplicateKeyCode)
    ensures Respond(err, development) ==
              Success(Response(422, if err.statusCode == 429 then Some(if err.retryAfter != 0 then err.retryAfter else DefaultRetryAfter) else None,
                               Body(false, "fail", "Validation Error", err.errors, None)))
  {
    LastMatchUnrolled(err);
    ThrowsExactly(err, development);
  }

  /** A CastError is a 400 naming the path and value, unless a code rule overrides it. */
  lemma CastErrorIs400(err: AppErr, development: bool)
    requires err.name == "CastError"
    requires err.code != NumericCode(DuplicateKeyCode)
    ensures Respond(err, development).Success?
    ensures Respond(err, development).value.statusCode == 400
    ensures err.code != TextCode("LIMIT_FILE_SIZE") ==>
              Respond(err, development).value.body.message == "Invalid " + err.path + ": " + err.value
  {
    LastMatchUnrolled(err);
    ThrowsExactly(err, development);
  }

  /**
    Rule order decides: a duplicate key overrides the validation and cast rules (409, and a
    ValidationError still carries its details), and the token rules override everything.
  */
  lemma LaterRulesOverride(err: AppErr, development: bool)
    requires err.code == NumericCode(DuplicateKeyCode) && err.keyValueFields.Some?
    requires err.name == "ValidationError" ==> err.errors.Some?
    ensures Respond(err, development).Success?
    ensures var resp := Respond(err, development).value;
            && (err.name == "JsonWebTokenError" ==> resp.statusCode == 401 && resp.body.message == "Invalid token")
            && (err.name == "TokenExpiredError" ==> resp.statusCode == 401 && resp.body.message == "Token expired")
            && (err.name != "JsonWebTokenError" && err.name != "TokenExpiredError" ==>
                  resp.statusCode == 409 && resp.body.message == DuplicateVerdict(err.keyValueFields.value))
            && (err.name == "ValidationError" ==> resp.statusCode == 409 && resp.body.errors == err.errors)
  {
    LastMatchUnrolled(err);
    ThrowsExactly(err, development);
  }

  /** The duplicate-key message names the first key of `keyValue` when there is one. */
  lemma DuplicateNamesField(fields: seq<string>)
    ensures |fields| > 0 && fields[0] != "" ==> DuplicateVerdict(fields) == "A record with this " + fields[0] + " already exists"
    ensures (|fields| == 0 || fields[0] == "") ==> DuplicateVerdict(fields) == DuplicateMessage
  {
  }

  /** An unknown route ends as a 404 "fail" response naming the URL. */
  lemma NotFoundResponds(originalUrl: string, development: bool)
    ensures Respond(NotFoundError(originalUrl), development) ==
              Success(Response(404, None, Body(false, "fail", "Not Found - " + originalUrl, None, None)))
  {
    Defaults(NotFoundError(originalUrl), development);
  }
}
