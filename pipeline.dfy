/**
 * The application pipeline of Main.ApplyTransformation: read the transform document, parse it,
 * extract and strip the target marker, hand the body to the transformation engine, truncate the
 * target file and copy the engine's output into it, then notify. Every exception on the way is
 * caught, logged and shown, and the pipeline answers false.
 *
 * The file system, the JSON parser and the engine are not modelled: what each of them returns or
 * throws is a parameter (an Environment), and what the pipeline does to the outside world is
 * recorded as a trace of effects on a Host object.
 */
module Pipeline {
  import opened Wrappers
  import opened Text
  import opened Json
  import opened TargetExtraction

  newtype byte = x: int | 0 <= x < 256

  /** What JsonConvert.DeserializeObject<JObject> gives for a file's text. */
  datatype ParseOutcome =
    | ParsedObject(properties: seq<Property>)
      /** The text was empty or the literal null: the result is a null reference, not an exception. */
    | ParsedNull
      /** Malformed JSON, or a top-level value that is not an object. */
    | ParseFailed(message: string)

  /** The outcome of every external step, as a function of what the step is given. */
  datatype Environment = Environment(
    /** File.ReadAllText: the file's text, or the exception message. */
    readAllText: string -> Result<string, string>,
    deserialize: string -> ParseOutcome,
    /** new JsonTransformation(body).Apply(targetPath): the transformed content, or the exception message. */
    transform: (seq<Property>, string) -> Result<seq<byte>, string>,
    /** File.Open(targetPath, FileMode.Truncate): fails, for one, when the target does not exist. */
    openTruncate: string -> Outcome,
    /** Stream.CopyTo into the opened target. */
    copyTo: (string, seq<byte>) -> Outcome)

  /** What the pipeline does that the outside world can observe, in the order it does it. */
  datatype Effect =
    | TransformRead(path: string)
    | EngineInvoked(body: seq<Property>, target: string)
    | TargetTruncated(target: string)
    | TargetWritten(target: string, data: seq<byte>)
    | Notified(title: string, text: string)
    | ErrorLogged(text: string, exceptionMessage: string)
    | MessageShown(title: string, text: string)

  /** An effect that changes a file. */
  predicate Touches(e: Effect)
  {
    e.TargetTruncated? || e.TargetWritten?
  }

  const NULL_REFERENCE_MESSAGE: string := "Object reference not set to an instance of an object."
  const SUCCESS_TITLE: string := "Transform success"
  const FAILURE_TITLE: string := "Problem with processing"

  /** The success notification's text: it names the transform file and the target file. */
  function SuccessText(transformFilePath: string, targetFilePath: string): (text: string)
    ensures IsInfix(transformFilePath, text) && IsInfix(targetFilePath, text)
  {
    var head := "Successfully applied transformation from ";
    InfixOfConcat(head, transformFilePath, " on " + targetFilePath);
    InfixOfConcat(head + transformFilePath + " on ", targetFilePath, []);
    var text := head + transformFilePath + " on " + targetFilePath;
    assert text == head + transformFilePath + (" on " + targetFilePath);
    assert text == (head + transformFilePath + " on ") + targetFilePath + [];
    text
  }

  /** The text of the log entry written on failure: it names the transform file. */
  function LogText(transformFilePath: string): (text: string)
    ensures IsInfix(transformFilePath, text)
  {
    var head := "Problem with apply transformation from file ";
    InfixOfConcat(head, transformFilePath, []);
    assert head + transformFilePath == head + transformFilePath + [];
    head + transformFilePath
  }

  /** The effects of the try block, and the message of the exception that ended it, if any. */
  datatype Attempt = Attempt(effects: seq<Effect>, thrown: Outcome)

  /**
   * Specification of the try block (Main.cs lines 88-109): it always starts by reading the transform
   * file, touches a file only after the engine call, and runs to its end exactly when it writes the
   * target and notifies.
   */
  function TryBlock(env: Environment, transformFilePath: string): (attempt: Attempt)
    ensures 1 <= |attempt.effects| <= 5 && attempt.effects[0] == TransformRead(transformFilePath)
    ensures forall i | 0 <= i < |attempt.effects| && Touches(attempt.effects[i]) :: 2 <= i && attempt.effects[1].EngineInvoked?
    ensures attempt.thrown.Pass? <==> |attempt.effects| == 5
    ensures attempt.thrown.Pass? ==>
      && attempt.effects[1].EngineInvoked?
      && attempt.effects[4] == Notified(SUCCESS_TITLE, SuccessText(transformFilePath, attempt.effects[1].target))
    ensures attempt.thrown.Fail? ==> forall i | 0 <= i < |attempt.effects| :: !attempt.effects[i].Notified?
  {
    var read := [TransformRead(transformFilePath)];
    match env.readAllText(transformFilePath)
    case Failure(m) => Attempt(read, Fail(m))
    case Success(text) =>
      match env.deserialize(text)
      case ParseFailed(m) => Attempt(read, Fail(m))
      case ParsedNull => Attempt(read, Fail(NULL_REFERENCE_MESSAGE))
      case ParsedObject(doc) =>
        match Extract(doc, transformFilePath)
        case Failure(m) => Attempt(read, Fail(m))
        case Success(x) =>
          var invoked := read + [EngineInvoked(x.body, x.targetPath)];
          match env.transform(x.body, x.targetPath)
          case Failure(m) => Attempt(invoked, Fail(m))
          case Success(output) =>
            match env.openTruncate(x.targetPath)
            case Fail(m) => Attempt(invoked, Fail(m))
            case Pass =>
              var truncated := invoked + [TargetTruncated(x.targetPath)];
              match env.copyTo(x.targetPath, output)
              case Fail(m) => Attempt(truncated, Fail(m))
              case Pass =>
                Attempt(truncated + [TargetWritten(x.targetPath, output),
                                     Notified(SUCCESS_TITLE, SuccessText(transformFilePath, x.targetPath))], Pass)
  }

  /** The whole pipeline's answer and effects. */
  datatype Run = Run(succeeded: bool, effects: seq<Effect>)

  /**
   * Specification of ApplyTransformation: the try block, then the catch block if it threw. The
   * answer is true exactly when the try block ran to its end; the catch block only appends its two
   * reports to the try block's effects.
   */
  function Apply(env: Environment, transformFilePath: string): (r: Run)
    ensures r.succeeded <==> TryBlock(env, transformFilePath).thrown.Pass?
    ensures var tried := TryBlock(env, transformFilePath).effects;
      && |tried| <= |r.effects| && r.effects[..|tried|] == tried
      && |r.effects| == |tried| + (if r.succeeded then 0 else 2)
  {
    var attempt := TryBlock(env, transformFilePath);
    match attempt.thrown
    case Pass => Run(true, attempt.effects)
    case Fail(m) => Run(false, attempt.effects + [ErrorLogged(LogText(transformFilePath), m), MessageShown(FAILURE_TITLE, m)])
  }

  /** The engine was reached and returned normally. */
  predicate EngineReturned(env: Environment, transformFilePath: string)
  {
    && env.readAllText(transformFilePath).Success?
    && env.deserialize(env.readAllText(transformFilePath).value).ParsedObject?
    && var doc := env.deserialize(env.readAllText(transformFilePath).value).properties;
    && Extract(doc, transformFilePath).Success?
    && var x := Extract(doc, transformFilePath).value;
    && env.transform(x.body, x.targetPath).Success?
  }

  /**
   * A failure in reading, parsing, extraction or the engine leaves every file untouched:
   * nothing is truncated and nothing is written.
   */
  lemma UntouchedUnlessEngineReturned(env: Environment, transformFilePath: string)
    requires !EngineReturned(env, transformFilePath)
    ensures var r := Apply(env, transformFilePath);
      !r.succeeded && forall i | 0 <= i < |r.effects| :: !Touches(r.effects[i])
  {
  }

  /**
   * The target is truncated and written only after the engine has been invoked on that same
   * target and returned; what is written is exactly the engine's output.
   */
  lemma WritesFollowEngine(env: Environment, transformFilePath: string)
    ensures var r := Apply(env, transformFilePath);
      forall i | 0 <= i < |r.effects| && Touches(r.effects[i]) ::
        exists j | 0 <= j < i :: r.effects[j].EngineInvoked? && r.effects[j].target == r.effects[i].target
          && env.transform(r.effects[j].body, r.effects[j].target).Success?
          && (r.effects[i].TargetWritten? ==>
                r.effects[i].data == env.transform(r.effects[j].body, r.effects[j].target).value)
  {
    var r := Apply(env, transformFilePath);
    if EngineReturned(env, transformFilePath) {
      var doc := env.deserialize(env.readAllText(transformFilePath).value).properties;
      var x := Extract(doc, transformFilePath).value;
      assert r.effects[1] == EngineInvoked(x.body, x.targetPath);
    } else {
      UntouchedUnlessEngineReturned(env, transformFilePath);
    }
  }

  /** The engine is only ever handed the parsed document with its marker entry deleted. */
  lemma EngineSeesStrippedBody(env: Environment, transformFilePath: string, text: string, doc: seq<Property>)
    requires env.readAllText(transformFilePath) == Success(text)
    requires env.deserialize(text) == ParsedObject(doc)
    ensures var r := Apply(env, transformFilePath);
      forall i | 0 <= i < |r.effects| && r.effects[i].EngineInvoked? ::
        && r.effects[i].body == Without(doc, TARGET_KEY)
        && TARGET_KEY !in Names(r.effects[i].body)
        && Lookup(doc, TARGET_KEY) == Some(String(r.effects[i].target))
  {
  }

  /**
   * For a parsed JObject, whose names are unique, the engine's body is the document with exactly
   * the marker's entry deleted, every other entry kept in its place and order.
   */
  lemma EngineSeesDocumentMinusMarker(env: Environment, transformFilePath: string, text: string, doc: seq<Property>)
    requires env.readAllText(transformFilePath) == Success(text)
    requires env.deserialize(text) == ParsedObject(doc)
    requires UniqueNames(doc)
    ensures var r := Apply(env, transformFilePath);
      forall k | 0 <= k < |r.effects| && r.effects[k].EngineInvoked? ::
        exists i | 0 <= i < |doc| ::
          && doc[i] == Property(TARGET_KEY, String(r.effects[k].target))
          && r.effects[k].body == doc[..i] + doc[i + 1..]
  {
    var r := Apply(env, transformFilePath);
    EngineSeesStrippedBody(env, transformFilePath, text, doc);
    forall k | 0 <= k < |r.effects| && r.effects[k].EngineInvoked?
      ensures exists i | 0 <= i < |doc| ::
        doc[i] == Property(TARGET_KEY, String(r.effects[k].target)) && r.effects[k].body == doc[..i] + doc[i + 1..]
    {
      var call := r.effects[k];
      var i :| 0 <= i < |doc| && FirstNamed(doc, TARGET_KEY, i) && doc[i].value == String(call.target);
      WithoutAt(doc, i, TARGET_KEY);
    }
  }

  /**
   * The pipeline succeeds exactly when the try block ran to its end, and then its last two effects
   * are the write of the target and a notification naming the transform file and that target.
   */
  lemma SuccessIsNotified(env: Environment, transformFilePath: string)
    ensures var r := Apply(env, transformFilePath);
      && (r.succeeded <==> exists i | 0 <= i < |r.effects| :: r.effects[i].Notified?)
      && (r.succeeded ==>
            && |r.effects| >= 2
            && r.effects[|r.effects| - 2].TargetWritten?
            && var target := r.effects[|r.effects| - 2].target;
            && r.effects[|r.effects| - 1] == Notified(SUCCESS_TITLE, SuccessText(transformFilePath, target))
            && IsInfix(transformFilePath, r.effects[|r.effects| - 1].text)
            && IsInfix(target, r.effects[|r.effects| - 1].text))
  {
    var r := Apply(env, transformFilePath);
    if r.succeeded {
      SuccessSteps(env, transformFilePath);
    } else {
      FailureIsReported(env, transformFilePath);
    }
  }

  /** On success the trace is the five steps of the happy path, in order. */
  lemma SuccessSteps(env: Environment, transformFilePath: string)
    requires Apply(env, transformFilePath).succeeded
    ensures var r := Apply(env, transformFilePath);
      && |r.effects| == 5
      && r.effects[0] == TransformRead(transformFilePath)
      && r.effects[1].EngineInvoked?
      && r.effects[2] == TargetTruncated(r.effects[1].target)
      && r.effects[3].TargetWritten? && r.effects[3].target == r.effects[1].target
      && r.effects[4] == Notified(SUCCESS_TITLE, SuccessText(transformFilePath, r.effects[1].target))
  {
  }

  /**
   * A failure is never let through: it ends the trace with a log entry naming the transform file
   * and a message showing the exception's text, and no notification of success is given.
   */
  lemma FailureIsReported(env: Environment, transformFilePath: string)
    requires !Apply(env, transformFilePath).succeeded
    ensures var r := Apply(env, transformFilePath);
      && |r.effects| >= 2
      && var logged := r.effects[|r.effects| - 2];
      && logged.ErrorLogged? && logged.text == LogText(transformFilePath)
      && IsInfix(transformFilePath, logged.text)
      && r.effects[|r.effects| - 1] == MessageShown(FAILURE_TITLE, logged.exceptionMessage)
      && logged.exceptionMessage == TryBlock(env, transformFilePath).thrown.message
      && forall i | 0 <= i < |r.effects| :: !r.effects[i].Notified?
  {
  }

  /**
   * The exception the try block stops at is the one raised by the first step that fails: the
   * read's, the parser's, the null reference's, the missing marker's, the engine's, the open's or
   * the copy's. Together with FailureIsReported, this is the text that is logged and shown.
   */
  lemma FailureCarriesStepMessage(env: Environment, transformFilePath: string)
    ensures var thrown := TryBlock(env, transformFilePath).thrown;
      var read := env.readAllText(transformFilePath);
      && (read.Failure? ==> thrown == Fail(read.error))
      && (read.Success? ==>
            var parsed := env.deserialize(read.value);
            && (parsed.ParseFailed? ==> thrown == Fail(parsed.message))
            && (parsed.ParsedNull? ==> thrown == Fail(NULL_REFERENCE_MESSAGE))
            && (parsed.ParsedObject? ==>
                  var x := Extract(parsed.properties, transformFilePath);
                  && (x.Failure? ==> thrown == Fail(MissingTargetMessage(transformFilePath)))
                  && (x.Success? ==>
                        var output := env.transform(x.value.body, x.value.targetPath);
                        && (output.Failure? ==> thrown == Fail(output.error))
                        && (output.Success? ==>
                              var truncate := env.openTruncate(x.value.targetPath);
                              && (truncate.Fail? ==> thrown == truncate)
                              && (truncate.Pass? ==> thrown == env.copyTo(x.value.targetPath, output.value))))))
  {
  }

  /**
   * A document whose marker is missing or not a string fails right after it is read: the engine is
   * never called, and both the log and the message carry the text naming the file and the key.
   */
  lemma MissingTargetFailsEarly(env: Environment, transformFilePath: string, text: string, doc: seq<Property>)
    requires env.readAllText(transformFilePath) == Success(text)
    requires env.deserialize(text) == ParsedObject(doc)
    requires !HasTarget(doc)
    ensures var m := MissingTargetMessage(transformFilePath);
      && Apply(env, transformFilePath)
           == Run(false, [TransformRead(transformFilePath), ErrorLogged(LogText(transformFilePath), m), MessageShown(FAILURE_TITLE, m)])
      && IsInfix(transformFilePath, m) && IsInfix(TARGET_KEY, m)
  {
    ExtractFailsWithoutStringTarget(doc, transformFilePath);
  }

  /** Malformed JSON, or a document that parses to null, fails before extraction or the engine. */
  lemma ParseFailureFailsEarly(env: Environment, transformFilePath: string, text: string)
    requires env.readAllText(transformFilePath) == Success(text)
    requires !env.deserialize(text).ParsedObject?
    ensures var m := if env.deserialize(text).ParsedNull? then NULL_REFERENCE_MESSAGE else env.deserialize(text).message;
      Apply(env, transformFilePath)
        == Run(false, [TransformRead(transformFilePath), ErrorLogged(LogText(transformFilePath), m), MessageShown(FAILURE_TITLE, m)])
  {
  }

  /**
   * A document {"__target": "/tmp/t.json", "x": 1} whose every step succeeds: the engine sees only
   * {"x": 1}, the target is overwritten with the engine's output, and the notification names both files.
   */
  lemma MarkerNeverReachesEngine(transformFilePath: string, text: string, output: seq<byte>)
    ensures var doc := [Property(TARGET_KEY, String("/tmp/t.json")), Property("x", Integer(1))];
      var env := Environment((p: string) => Success(text), (t: string) => ParsedObject(doc),
                             (b: seq<Property>, t: string) => Success(output),
                             (t: string) => Pass, (t: string, d: seq<byte>) => Pass);
      Apply(env, transformFilePath) == Run(true, [
        TransformRead(transformFilePath),
        EngineInvoked([Property("x", Integer(1))], "/tmp/t.json"),
        TargetTruncated("/tmp/t.json"),
        TargetWritten("/tmp/t.json", output),
        Notified(SUCCESS_TITLE, SuccessText(transformFilePath, "/tmp/t.json"))])
  {
    var doc := [Property(TARGET_KEY, String("/tmp/t.json")), Property("x", Integer(1))];
    assert Lookup(doc, TARGET_KEY) == Some(String("/tmp/t.json"));
    assert |"x"| != |TARGET_KEY|;
    var rest := [Property("x", Integer(1))];
    assert doc[1..] == rest && rest[1..] == [];
    assert Without(rest, TARGET_KEY) == [rest[0]] + Without([], TARGET_KEY);
    assert Without(doc, TARGET_KEY) == Without(rest, TARGET_KEY);
    assert Extract(doc, transformFilePath).Success?;
    assert Extract(doc, transformFilePath).value.targetPath == "/tmp/t.json";
    assert Extract(doc, transformFilePath).value.body == rest;
    var env := Environment((p: string) => Success(text), (t: string) => ParsedObject(doc),
                           (b: seq<Property>, t: string) => Success(output),
                           (t: string) => Pass, (t: string, d: seq<byte>) => Pass);
    assert env.deserialize(text) == ParsedObject(doc);
  }

  /**
   * The recorder of effects: the plugin's host API (notifications, messages, log) together with the
   * file system and the engine, whose answers come from `env`.
   */
  class Host {
    const env: Environment
    var effects: seq<Effect>

    constructor (env: Environment)
      ensures this.env == env && effects == []
    {
      this.env := env;
      effects := [];
    }

    method ReadAllText(path: string) returns (r: Result<string, string>)
      modifies this
      ensures r == env.readAllText(path) && effects == old(effects) + [TransformRead(path)]
    {
      r := env.readAllText(path);
      effects := effects + [TransformRead(path)];
    }

    method Transform(body: seq<Property>, targetPath: string) returns (r: Result<seq<byte>, string>)
      modifies this
      ensures r == env.transform(body, targetPath) && effects == old(effects) + [EngineInvoked(body, targetPath)]
    {
      r := env.transform(body, targetPath);
      effects := effects + [EngineInvoked(body, targetPath)];
    }

    method OpenTruncate(targetPath: string) returns (r: Outcome)
      modifies this
      ensures r == env.openTruncate(targetPath)
      ensures effects == old(effects) + if r.Pass? then [TargetTruncated(targetPath)] else []
    {
      r := env.openTruncate(targetPath);
      if r.Pass? {
        effects := effects + [TargetTruncated(targetPath)];
      }
    }

    method CopyTo(targetPath: string, data: seq<byte>) returns (r: Outcome)
      modifies this
      ensures r == env.copyTo(targetPath, data)
      ensures effects == old(effects) + if r.Pass? then [TargetWritten(targetPath, data)] else []
    {
      r := env.copyTo(targetPath, data);
      if r.Pass? {
        effects := effects + [TargetWritten(targetPath, data)];
      }
    }

    method ShowNotification(title: string, text: string)
      modifies this
      ensures effects == old(effects) + [Notified(title, text)]
    {
      effects := effects + [Notified(title, text)];
    }

    method LogException(text: string, exceptionMessage: string)
      modifies this
      ensures effects == old(effects) + [ErrorLogged(text, exceptionMessage)]
    {
      effects := effects + [ErrorLogged(text, exceptionMessage)];
    }

    method ShowMsg(title: string, text: string)
      modifies this
      ensures effects == old(effects) + [MessageShown(title, text)]
    {
      effects := effects + [MessageShown(title, text)];
    }
  }

  /** The try block of ApplyTransformation: each step in turn, stopping at the first exception. */
  method TryApply(host: Host, transformFilePath: string) returns (thrown: Outcome)
    modifies host
    ensures var attempt := TryBlock(host.env, transformFilePath);
      host.effects == old(host.effects) + attempt.effects && thrown == attempt.thrown
  {
    var text := host.ReadAllText(transformFilePath);
    if text.Failure? {
      return Fail(text.error);
    }
    var parsed := host.env.deserialize(text.value);
    if parsed.ParseFailed? {
      return Fail(parsed.message);
    }
    if parsed.ParsedNull? {
      return Fail(NULL_REFERENCE_MESSAGE);
    }
    var document := new JObject(parsed.properties);
    var target := document.GetValue(TARGET_KEY);
    if !(target.Some? && target.value.String?) {
      return Fail(MissingTargetMessage(transformFilePath));
    }
    var targetFilePath := target.value.s;
    var _ := document.Remove(TARGET_KEY);
    assert Extract(parsed.properties, transformFilePath) == Success(Extracted(targetFilePath, document.properties));
    var output := host.Transform(document.properties, targetFilePath);
    if output.Failure? {
      return Fail(output.error);
    }
    var truncate := host.OpenTruncate(targetFilePath);
    if truncate.Fail? {
      return truncate;
    }
    var copied := host.CopyTo(targetFilePath, output.value);
    if copied.Fail? {
      return copied;
    }
    host.ShowNotification(SUCCESS_TITLE, SuccessText(transformFilePath, targetFilePath));
    return Pass;
  }

  /** Main.ApplyTransformation: never throws; true on success, false after logging and showing the failure. */
  method ApplyTransformation(host: Host, transformFilePath: string) returns (succeeded: bool)
    modifies host
    ensures succeeded == Apply(host.env, transformFilePath).succeeded
    ensures host.effects == old(host.effects) + Apply(host.env, transformFilePath).effects
  {
    var thrown := TryApply(host, transformFilePath);
    if thrown.Fail? {
      host.LogException(LogText(transformFilePath), thrown.message);
      host.ShowMsg(FAILURE_TITLE, thrown.message);
      return false;
    }
    return true;
  }
}
