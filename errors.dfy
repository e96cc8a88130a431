/**
 * The global error handler: what the client receives for an error a
 * service throws, depending on the environment. In production a few known
 * error shapes are turned into 400 answers with a fixed wording, other
 * operational errors keep their own status and message, and everything
 * else becomes a generic 500. Stack traces and the serialized error of the
 * development answer are not modelled.
 */
module ErrorHandling {
  import opened Common

  datatype Env = Development | Production | OtherEnv

  /** A thrown error as the handler reads it: `name`, `message`, `code`,
      `statusCode`, `isOperational`, a cast error's `path` and `value` and a
      duplicate-key error's `keyValue.name` as template literals render
      them, and the messages of its `errors` entry in order. */
  datatype Thrown = Thrown(
    name: string, message: string, code: Option<int>, statusCode: Option<int>,
    isOperational: bool, path: string, value: string, keyValueName: Option<string>,
    errorMessages: seq<string>)

  /** The status the body carries: the numeric code, or the word `error`
      of the generic answer. */
  datatype BodyStatus = Code(code: int) | ErrorWord

  datatype Reply = Reply(httpStatus: int, status: BodyStatus, message: string)

  const CUSTOM_ERROR_NAME: string := "Error"
  const GENERIC_MESSAGE: string := "Something went wrong! Please try again later."
  const FK_MESSAGE: string :=
    "insert or update on table \"familyChats\" " + "violates foreign key constraint " + "\"familyChats_familyId_fkey\""
  const ECONNRESET_MESSAGE: string := "read ECONNRESET"
  const UUID_PREFIX: string := "invalid input syntax for type uuid"
  const UUID_MESSAGE_ID: string := UuidMessage("\"messageId\"")
  const UUID_FAMILY_ID: string := UuidMessage("\"familyId\"")
  const UUID_ID: string := UuidMessage("\"id\"")
  const UUID_USER_ID: string := UuidMessage("\"userId\"")

  const CONSTRAINT_TEXT: string := "Database constraint error occurred."
  const CONNECTION_TEXT: string := "Database connection failed, " + "Please check your internet"
  const MESSAGE_ID_TEXT: string := "Please pass the valid message Id " + "instead of messageId in params"
  const FAMILY_ID_TEXT: string := "Please pass the valid family Id " + "instead of familyId in params"
  const ID_TEXT: string := "Please pass the valid Id " + "instead of Id in params"
  const USER_ID_TEXT: string := "Please pass the valid user Id " + "instead of userId in params"
  const UUID_TEXT: string := "Please pass the valid UUID"

  /** The database's message for a value that is not a uuid. */
  function UuidMessage(column: string): string
  {
    UUID_PREFIX + ": " + column
  }

  /** `new CustomError(msg, 400)`: operational, status 400, no `code`. */
  function BadInput(msg: string): (e: Thrown)
    ensures e.isOperational && e.statusCode == Some(400) && e.message == msg
    ensures e.code.None? && e.name == CUSTOM_ERROR_NAME
  {
    Thrown(CUSTOM_ERROR_NAME, msg, None, Some(400), true, "undefined", "undefined", None, [])
  }

  function CastMessage(e: Thrown): string
  {
    "Invalid value for " + e.path + ": " + e.value + "!"
  }

  function DuplicateMessage(e: Thrown): string
  {
    "There is already a record with name " + e.keyValueName.GetOr("undefined") + ". Please use another name!"
  }

  function ValidationMessage(e: Thrown): string
  {
    "Invalid input data: " + Join(e.errorMessages, ". ")
  }

  /** `message.split(':')[0]`. */
  function BeforeColon(s: string): (t: string)
    ensures |t| <= |s| && t == s[..|t|]
    ensures ':' !in t
  {
    if s == [] || s[0] == ':' then [] else [s[0]] + BeforeColon(s[1..])
  }

  // -----------------------------------------------------------------------
  // The production chain, step by step as written: every test looks at the
  // error as the previous steps left it.

  /** The three name and code tests. A rewritten error is named `Error`
      and has no code, so once one test has fired the later ones pass it
      by: each result is the first matching test's 400, or `e` itself. */
  function ByName(e: Thrown): (r: Thrown)
    ensures e.name == "CastError" ==> r == BadInput(CastMessage(e))
    ensures e.name != "CastError" && e.code == Some(11000) ==> r == BadInput(DuplicateMessage(e))
    ensures e.name != "CastError" && e.code != Some(11000) && e.name == "ValidationError" ==>
              r == BadInput(ValidationMessage(e))
    ensures e.name != "CastError" && e.code != Some(11000) && e.name != "ValidationError" ==> r == e
  {
    var e1 := if e.name == "CastError" then BadInput(CastMessage(e)) else e;
    var e2 := if e1.code == Some(11000) then BadInput(DuplicateMessage(e1)) else e1;
    if e2.name == "ValidationError" then BadInput(ValidationMessage(e2)) else e2
  }

  /** An exact-message test: the message it looks for and the wording of
      the 400 answer it substitutes. */
  datatype MessageRule = MessageRule(trigger: string, text: string)

  /** The exact-message tests, in the order they are applied. */
  const MESSAGE_RULES: seq<MessageRule> := [
    MessageRule(FK_MESSAGE, CONSTRAINT_TEXT),
    MessageRule(ECONNRESET_MESSAGE, CONNECTION_TEXT),
    MessageRule(UUID_MESSAGE_ID, MESSAGE_ID_TEXT),
    MessageRule(UUID_FAMILY_ID, FAMILY_ID_TEXT),
    MessageRule(UUID_ID, ID_TEXT),
    MessageRule(UUID_USER_ID, USER_ID_TEXT)
  ]

  /** Applies the tests in order, each to the error the previous ones left. */
  /** Applies the tests in order, each to the error the previous ones left.
      The result is `e` or the 400 carrying one of the tests' wordings. */
  function Rewrite(e: Thrown, rules: seq<MessageRule>): (r: Thrown)
    ensures r == e || exists i :: 0 <= i < |rules| && r == BadInput(rules[i].text)
    decreases |rules|
  {
    if rules == [] then e
    else
      var r := Rewrite(if e.message == rules[0].trigger then BadInput(rules[0].text) else e, rules[1..]);
      assert forall i :: 0 <= i < |rules| - 1 ==> rules[1..][i] == rules[i + 1];
      r
  }

  /** The exact-message tests, then the uuid prefix test. Every uuid syntax
      error ends up a 400, whichever column it names. */
  function ByMessage(e: Thrown): (r: Thrown)
    ensures r == e || r == BadInput(r.message)
    ensures BeforeColon(e.message) == UUID_PREFIX ==> r.statusCode == Some(400) && r.isOperational
  {
    var m := Rewrite(e, MESSAGE_RULES);
    if BeforeColon(m.message) == UUID_PREFIX then BadInput(UUID_TEXT)
    else
      assert m == e || m == BadInput(m.message);
      m
  }

  /** The error `prodErrors` receives: the original one, or a 400 in its
      place. */
  function Classify(e: Thrown): (r: Thrown)
    ensures r == e || r == BadInput(r.message)
  {
    ByMessage(ByName(e))
  }

  // -----------------------------------------------------------------------
  // The same rules read as "the first rule that matches the original error".

  /** The wording of the first test whose message is `msg`, if any. */
  function FirstText(msg: string, rules: seq<MessageRule>): (r: Option<string>)
    ensures r.None? <==> forall i :: 0 <= i < |rules| ==> rules[i].trigger != msg
    ensures r.Some? ==> exists i :: 0 <= i < |rules| && rules[i].trigger == msg && rules[i].text == r.value
  {
    if rules == [] then None
    else if rules[0].trigger == msg then Some(rules[0].text)
    else
      var r := FirstText(msg, rules[1..]);
      assert forall i :: 1 <= i < |rules| ==> rules[i] == rules[1..][i - 1];
      r
  }

  datatype Rule =
    | CastRule | DuplicateRule | ValidationRule | MessageMatch(text: string) | UuidRule | NoRule

  function FirstRule(e: Thrown): Rule
  {
    if e.name == "CastError" then CastRule
    else if e.code == Some(11000) then DuplicateRule
    else if e.name == "ValidationError" then ValidationRule
    else match FirstText(e.message, MESSAGE_RULES)
      case Some(t) => MessageMatch(t)
      case None => if BeforeColon(e.message) == UUID_PREFIX then UuidRule else NoRule
  }

  /** The wording of the 400 answer each rule gives. */
  function RuleText(rule: Rule, e: Thrown): string
  {
    match rule
    case CastRule => CastMessage(e)
    case DuplicateRule => DuplicateMessage(e)
    case ValidationRule => ValidationMessage(e)
    case MessageMatch(t) => t
    case UuidRule => UUID_TEXT
    case NoRule => e.message
  }

  /** The text before the first colon starts where the message does. */
  lemma {:induction false} BeforeColonHead(s: string)
    requires s != [] && s[0] != ':'
    ensures BeforeColon(s) != [] && BeforeColon(s)[0] == s[0]
  {
  }

  /** Tests none of which looks for the message leave the error alone. */
  lemma {:induction false} RewriteNoMatch(e: Thrown, rules: seq<MessageRule>)
    requires forall i :: 0 <= i < |rules| ==> rules[i].trigger != e.message
    ensures Rewrite(e, rules) == e
    decreases |rules|
  {
    if rules != [] {
      assert rules[0].trigger != e.message;
      forall i | 0 <= i < |rules[1..]| ensures rules[1..][i].trigger != e.message {
        assert rules[1..][i] == rules[i + 1];
      }
      RewriteNoMatch(e, rules[1..]);
    }
  }

  /** No wording a test substitutes is a message some test looks for. */
  predicate TextsAreNotTriggers(rules: seq<MessageRule>)
  {
    forall i, j :: 0 <= i < |rules| && 0 <= j < |rules| ==> rules[i].text != rules[j].trigger
  }

  /** Applying the tests in order gives the first matching test's answer:
      once a test has fired, its wording matches no later test. */
  lemma {:induction false} RewriteFirstMatch(e: Thrown, rules: seq<MessageRule>)
    requires TextsAreNotTriggers(rules)
    ensures FirstText(e.message, rules).Some? ==> Rewrite(e, rules) == BadInput(FirstText(e.message, rules).value)
    ensures FirstText(e.message, rules).None? ==> Rewrite(e, rules) == e
    decreases |rules|
  {
    if rules != [] {
      var tail := rules[1..];
      assert forall i :: 0 <= i < |tail| ==> tail[i] == rules[i + 1];
      if e.message == rules[0].trigger {
        var b := BadInput(rules[0].text);
        forall i | 0 <= i < |tail| ensures tail[i].trigger != b.message {
          assert rules[0].text != rules[i + 1].trigger;
        }
        RewriteNoMatch(b, tail);
      } else {
        assert TextsAreNotTriggers(tail);
        RewriteFirstMatch(e, tail);
      }
    }
  }

  /** The substituted wordings start with an upper-case letter, the
      messages tested for with a lower-case one. */
  lemma MessageRulesAreSound()
    ensures TextsAreNotTriggers(MESSAGE_RULES)
    ensures forall i :: 0 <= i < |MESSAGE_RULES| ==>
              var t := MESSAGE_RULES[i].text; t != [] && 'A' <= t[0] <= 'Z'
  {
    var rules := MESSAGE_RULES;
    assert CONSTRAINT_TEXT[0] == 'D' && CONNECTION_TEXT[0] == 'D';
    assert MESSAGE_ID_TEXT[0] == 'P' && FAMILY_ID_TEXT[0] == 'P' && ID_TEXT[0] == 'P' && USER_ID_TEXT[0] == 'P';
    assert FK_MESSAGE[0] == 'i' && ECONNRESET_MESSAGE[0] == 'r';
    assert UUID_PREFIX[0] == 'i';
    forall i | 0 <= i < |rules| ensures 'a' <= rules[i].trigger[0] <= 'z' {
      if 2 <= i {
        assert rules[i].trigger[0] == UUID_PREFIX[0];
      }
    }
  }

  /** A message that starts with an upper-case letter matches no rule. */
  lemma UpperMessageMatchesNothing(msg: string)
    requires msg != [] && 'A' <= msg[0] <= 'Z'
    ensures FirstText(msg, MESSAGE_RULES).None?
    ensures BeforeColon(msg) != UUID_PREFIX
  {
    var rules := MESSAGE_RULES;
    BeforeColonHead(msg);
    assert UUID_PREFIX[0] == 'i';
    forall i | 0 <= i < |rules| ensures rules[i].trigger != msg {
      assert FK_MESSAGE[0] == 'i' && ECONNRESET_MESSAGE[0] == 'r';
      if 2 <= i {
        assert rules[i].trigger[0] == UUID_PREFIX[0];
      }
    }
  }

  /** Every 400 the chain substitutes passes the rest of the chain intact. */
  lemma UpperMessageTriggersNothing(msg: string)
    requires msg != [] && 'A' <= msg[0] <= 'Z'
    ensures ByMessage(BadInput(msg)) == BadInput(msg)
  {
    UpperMessageMatchesNothing(msg);
    RewriteNoMatch(BadInput(msg), MESSAGE_RULES);
  }

  /** Running the chain on the error as it evolves gives the same answer as
      taking the first rule that matches the original error: no rewritten
      error matches a later rule. */
  lemma ChainIsFirstMatch(e: Thrown)
    ensures FirstRule(e) != NoRule ==> Classify(e) == BadInput(RuleText(FirstRule(e), e))
    ensures FirstRule(e) == NoRule ==> Classify(e) == e
  {
    var rule := FirstRule(e);
    match rule
    case CastRule =>
      assert CastMessage(e)[0] == 'I';
      UpperMessageTriggersNothing(CastMessage(e));
    case DuplicateRule =>
      assert DuplicateMessage(e)[0] == 'T';
      UpperMessageTriggersNothing(DuplicateMessage(e));
    case ValidationRule =>
      assert ValidationMessage(e)[0] == 'I';
      UpperMessageTriggersNothing(ValidationMessage(e));
    case MessageMatch(t) =>
      assert ByName(e) == e;
      MessageRulesAreSound();
      RewriteFirstMatch(e, MESSAGE_RULES);
      UpperMessageMatchesNothing(t);
    case UuidRule =>
      assert ByName(e) == e;
      RewriteNoMatch(e, MESSAGE_RULES);
    case NoRule =>
      assert ByName(e) == e;
      RewriteNoMatch(e, MESSAGE_RULES);
  }

  /** `prodErrors`. */
  function ProdReply(e: Thrown): (r: Reply)
    ensures e.isOperational ==> r == Reply(NumOr(e.statusCode, 500), Code(NumOr(e.statusCode, 500)), e.message)
    ensures !e.isOperational ==> r == Reply(500, ErrorWord, GENERIC_MESSAGE)
  {
    if e.isOperational then
      var code := NumOr(e.statusCode, 500);
      Reply(code, Code(code), e.message)
    else Reply(500, ErrorWord, GENERIC_MESSAGE)
  }

  /** The development message: for the message `Validation error`, the
      first nested message when there is a non-empty one. */
  function DevMessage(e: Thrown): (m: string)
    ensures e.message != "Validation error" ==> m == e.message
    ensures m != e.message ==> e.errorMessages != [] && m == e.errorMessages[0] && m != ""
    ensures e.message == "Validation error" && e.errorMessages != [] && e.errorMessages[0] != "" ==>
              m == e.errorMessages[0]
  {
    if e.message == "Validation error" && e.errorMessages != [] && e.errorMessages[0] != ""
    then e.errorMessages[0] else e.message
  }

  /** `globalErrorHandler`: the status defaults to 500; development answers
      with the error's own status, production classifies first, and any
      other environment sends nothing. */
  function GlobalErrorHandler(env: Env, e: Thrown): (r: Option<Reply>)
    ensures env == OtherEnv <==> r.None?
    ensures env == Development ==>
      r == Some(Reply(NumOr(e.statusCode, 500), Code(NumOr(e.statusCode, 500)), DevMessage(e)))
    ensures env == Production ==> r.Some? && r.value.httpStatus in {400, 500, NumOr(e.statusCode, 500)}
  {
    var e0 := e.(statusCode := Some(NumOr(e.statusCode, 500)));
    match env
    case Development => Some(Reply(NumOr(e0.statusCode, 500), Code(NumOr(e0.statusCode, 500)), DevMessage(e0)))
    case Production => ChainIsFirstMatch(e0); Some(ProdReply(Classify(e0)))
    case OtherEnv => None
  }

  /** In production a recognised error is a 400 with the rule's wording, an
      operational one keeps its status and message, and anything else is
      the generic 500. */
  lemma ProductionAnswers(e: Thrown)
    ensures var r := GlobalErrorHandler(Production, e).value;
            var rule := FirstRule(e);
            && (rule != NoRule ==> r == Reply(400, Code(400), RuleText(rule, e)))
            && (rule == NoRule && e.isOperational ==>
                  r == Reply(NumOr(e.statusCode, 500), Code(NumOr(e.statusCode, 500)), e.message))
            && (rule == NoRule && !e.isOperational ==> r == Reply(500, ErrorWord, GENERIC_MESSAGE))
  {
    var e0 := e.(statusCode := Some(NumOr(e.statusCode, 500)));
    ChainIsFirstMatch(e0);
    assert FirstRule(e0) == FirstRule(e) && RuleText(FirstRule(e), e0) == RuleText(FirstRule(e), e);
  }

  /** The names the chain tests are those of another database library: the
      validation errors this store's library throws (a failed NOT NULL
      check, a unique-key clash reported as `Validation error`) are not
      operational and, in production, reach the client as the generic 500. */
  lemma StoreValidationErrorsAreGeneric(message: string, rest: string, code: Option<int>,
                                        statusCode: Option<int>, msgs: seq<string>)
    requires message == "Validation error" || message == "notNull Violation: " + rest
    requires code != Some(11000)
    ensures var e := Thrown("SequelizeValidationError", message, code, statusCode, false, "undefined", "undefined", None, msgs);
            GlobalErrorHandler(Production, e) == Some(Reply(500, ErrorWord, GENERIC_MESSAGE))
  {
    var e := Thrown("SequelizeValidationError", message, code, statusCode, false, "undefined", "undefined", None, msgs);
    var rules := MESSAGE_RULES;
    assert message[0] == 'V' || message[0] == 'n';
    BeforeColonHead(message);
    assert UUID_PREFIX[0] == 'i';
    forall i | 0 <= i < |rules| ensures rules[i].trigger != message {
      assert FK_MESSAGE[0] == 'i' && ECONNRESET_MESSAGE[0] == 'r';
      if 2 <= i {
        assert rules[i].trigger[0] == UUID_PREFIX[0];
      }
    }
    assert FirstRule(e) == NoRule;
    ProductionAnswers(e);
  }

  /** Uuid errors on different columns have different messages. */
  lemma UuidMessagesDiffer(a: string, b: string)
    requires a != b
    ensures UuidMessage(a) != UuidMessage(b)
  {
    var p := UUID_PREFIX + ": ";
    assert UuidMessage(a)[|p|..] == a && UuidMessage(b)[|p|..] == b;
  }

  /** A uuid message is neither the foreign-key nor the reset message. */
  lemma UuidMessageIsNotFixed(column: string)
    ensures UuidMessage(column) != FK_MESSAGE && UuidMessage(column) != ECONNRESET_MESSAGE
  {
    var msg := UuidMessage(column);
    assert msg[2] == UUID_PREFIX[2] == 'v' && FK_MESSAGE[2] == 's';
    assert msg[0] == UUID_PREFIX[0] == 'i' && ECONNRESET_MESSAGE[0] == 'r';
  }

  /** A uuid message for a column other than the four named ones matches
      none of the exact-message tests. */
  lemma UuidMessageMatchesNoTest(column: string)
    requires column != "\"messageId\"" && column != "\"familyId\"" && column != "\"id\"" && column != "\"userId\""
    ensures FirstText(UuidMessage(column), MESSAGE_RULES).None?
  {
    UuidMessageIsNotFixed(column);
    UuidMessagesDiffer(column, "\"messageId\"");
    UuidMessagesDiffer(column, "\"familyId\"");
    UuidMessagesDiffer(column, "\"id\"");
    UuidMessagesDiffer(column, "\"userId\"");
  }

  /** A uuid syntax error on a column other than the four named ones gets
      the general uuid wording. */
  lemma OtherUuidErrors(column: string)
    requires column != "\"messageId\"" && column != "\"familyId\"" && column != "\"id\"" && column != "\"userId\""
    ensures FirstRule(Thrown("error", UuidMessage(column), None, None, false, "", "", None, [])) == UuidRule
  {
    UuidMessageMatchesNoTest(column);
    assert UuidMessage(column) == UUID_PREFIX + (": " + column);
    BeforeColonAt(UUID_PREFIX, ": " + column);
  }

  /** The text before the first colon of `a + b`, when `a` has no colon and
      `b` starts with one, is `a`. */
  lemma {:induction false} BeforeColonAt(a: string, b: string)
    requires ':' !in a && b != [] && b[0] == ':'
    ensures BeforeColon(a + b) == a
    decreases |a|
  {
    if a == [] {
      assert a + b == b;
    } else {
      assert (a + b)[0] == a[0] && (a + b)[1..] == a[1..] + b;
      BeforeColonAt(a[1..], b);
      assert a == [a[0]] + a[1..];
    }
  }
}
