/**
 * Target extraction: a transform document names the file it applies to under the reserved
 * top-level key "__target"; that entry is taken out before the rest goes to the engine.
 */
module TargetExtraction {
  import opened Wrappers
  import opened Text
  import opened Json

  /** The reserved marker key. */
  const TARGET_KEY: string := "__target"

  /** The ApplicationException message raised when the marker is missing or not a string: it names the file and the key. */
  function MissingTargetMessage(transformFilePath: string): (message: string)
    ensures IsInfix(transformFilePath, message) && IsInfix(TARGET_KEY, message)
  {
    var head, tail := "File: ", " do not contains key \"";
    InfixOfConcat(head, transformFilePath, tail + TARGET_KEY + "\" ");
    InfixOfConcat(head + transformFilePath + tail, TARGET_KEY, "\" ");
    assert head + transformFilePath + (tail + TARGET_KEY + "\" ") == (head + transformFilePath + tail) + TARGET_KEY + "\" ";
    head + transformFilePath + tail + TARGET_KEY + "\" "
  }

  /** What a successful extraction yields: the target path and the document without the marker. */
  datatype Extracted = Extracted(targetPath: string, body: seq<Property>)

  /** The document's marker is present and holds a JSON string. */
  predicate HasTarget(doc: seq<Property>)
  {
    Lookup(doc, TARGET_KEY).Some? && Lookup(doc, TARGET_KEY).value.String?
  }

  /**
   * Reads the marker of the document parsed from `transformFilePath` and strips it.
   * Succeeds exactly when the marker holds a string, whose value is then the target path.
   */
  function Extract(doc: seq<Property>, transformFilePath: string): (r: Result<Extracted, string>)
    ensures r.Success? <==> exists i | 0 <= i < |doc| :: FirstNamed(doc, TARGET_KEY, i) && doc[i].value.String?
    ensures r.Success? ==> Lookup(doc, TARGET_KEY) == Some(String(r.value.targetPath))
    ensures r.Success? ==> TARGET_KEY !in Names(r.value.body)
    ensures r.Failure? ==> r.error == MissingTargetMessage(transformFilePath)
  {
    var target := Lookup(doc, TARGET_KEY);
    if target.Some? && target.value.String? then
      LookupWithout(doc, TARGET_KEY, TARGET_KEY);
      Success(Extracted(target.value.s, Without(doc, TARGET_KEY)))
    else
      Failure(MissingTargetMessage(transformFilePath))
  }

  /**
   * The body is the document with only the marker entry deleted: every other property keeps
   * its value and its place, and every other name looks up as before.
   */
  lemma ExtractedBody(doc: seq<Property>, transformFilePath: string)
    requires UniqueNames(doc)
    requires Extract(doc, transformFilePath).Success?
    ensures var body := Extract(doc, transformFilePath).value.body;
      && UniqueNames(body)
      && (exists i | 0 <= i < |doc| :: doc[i].name == TARGET_KEY && body == doc[..i] + doc[i + 1..])
      && |body| == |doc| - 1
      && forall name | name != TARGET_KEY :: Lookup(body, name) == Lookup(doc, name)
  {
    var body := Extract(doc, transformFilePath).value.body;
    var i :| 0 <= i < |doc| && FirstNamed(doc, TARGET_KEY, i) && doc[i].value.String?;
    WithoutAt(doc, i, TARGET_KEY);
    WithoutUnique(doc, TARGET_KEY);
    forall name | name != TARGET_KEY
      ensures Lookup(body, name) == Lookup(doc, name)
    {
      LookupWithout(doc, TARGET_KEY, name);
    }
  }

  /** The stripped body can never be extracted from again: it no longer names a target. */
  lemma BodyHasNoTarget(doc: seq<Property>, transformFilePath: string, otherPath: string)
    requires Extract(doc, transformFilePath).Success?
    ensures Extract(Extract(doc, transformFilePath).value.body, otherPath) == Failure(MissingTargetMessage(otherPath))
  {
    var body := Extract(doc, transformFilePath).value.body;
    assert TARGET_KEY !in Names(body);
    assert forall i | 0 <= i < |body| :: body[i].name in Names(body);
  }

  /** A marker that is absent, null, a number, a date, an array or an object makes extraction fail. */
  lemma ExtractFailsWithoutStringTarget(doc: seq<Property>, transformFilePath: string)
    requires !HasTarget(doc)
    ensures Extract(doc, transformFilePath) == Failure(MissingTargetMessage(transformFilePath))
  {
  }
}
