/**
 * The identifier `createDidDocument` builds, `did:algo:<network>:app:<appId>:<hex>`,
 * the `#master` key reference, and the document skeleton holding them; with a
 * parser that recovers the three parts from the identifier.
 */
module DidIdentifier {
  datatype Option<T> = None | Some(value: T)

  const COLON: char := ':'

  /** The three inputs the identifier is built from. */
  datatype DidParts = DidParts(network: string, appId: string, publicKeyHex: string)

  datatype VerificationMethod = VerificationMethod(id: string, kind: string, controller: string)

  /** A DID document without its service entries. */
  datatype DidDocument = DidDocument(
    context: seq<string>,
    id: string,
    verificationMethod: seq<VerificationMethod>,
    authentication: seq<string>)

  const CONTEXTS: seq<string> := [
    "https://www.w3.org/ns/did/v1",
    "https://w3id.org/security/suites/ed25519-2020/v1",
    "https://w3id.org/security/suites/x25519-2020/v1"
  ]

  predicate NoColon(s: string)
  {
    forall k :: 0 <= k < |s| ==> s[k] != COLON
  }

  /** Lower-case hex digits, as `Buffer.toString('hex')` writes them. */
  predicate IsLowerHex(s: string)
  {
    forall k :: 0 <= k < |s| ==> s[k] in "0123456789abcdef"
  }

  lemma HexHasNoColon(s: string)
    requires IsLowerHex(s)
    ensures NoColon(s)
  {
  }

  /** The `subject` template: `<network>:app:<appId>:<publicKeyHex>`. */
  function Subject(network: string, appId: string, publicKeyHex: string): string
  {
    network + ":app:" + appId + ":" + publicKeyHex
  }

  /** The `did` template: `did:algo:<subject>`. */
  function Did(network: string, appId: string, publicKeyHex: string): (did: string)
    ensures |did| == 9 + |network| + 5 + |appId| + 1 + |publicKeyHex|
    ensures did[..9] == "did:algo:"
  {
    "did:algo:" + Subject(network, appId, publicKeyHex)
  }

  /** The id of the document's single verification method. */
  function MasterKeyId(did: string): (id: string)
    ensures |id| == |did| + 7 && id[..|did|] == did && id[|did|..] == "#master"
  {
    did + "#master"
  }

  /** `createDidDocument` without its hard-coded service entries. */
  function CreateDidDocument(network: string, appId: string, publicKeyHex: string): (d: DidDocument)
    ensures d.id == Did(network, appId, publicKeyHex)
    ensures d.context == CONTEXTS
    ensures |d.verificationMethod| == 1 && |d.authentication| == 1
    ensures d.verificationMethod[0].controller == d.id
    ensures d.verificationMethod[0].kind == "Ed25519VerificationKey2020"
    ensures d.authentication[0] == d.verificationMethod[0].id == MasterKeyId(d.id)
  {
    var did := Did(network, appId, publicKeyHex);
    DidDocument(
      CONTEXTS,
      did,
      [VerificationMethod(MasterKeyId(did), "Ed25519VerificationKey2020", did)],
      [MasterKeyId(did)])
  }

  /** Index of the first colon of `s`, or `|s|` when there is none. */
  function FirstColon(s: string): (i: nat)
    ensures i <= |s|
    ensures NoColon(s[..i])
    ensures i < |s| ==> s[i] == COLON
  {
    if s == [] then 0
    else if s[0] == COLON then 0
    else
      var i := 1 + FirstColon(s[1..]);
      assert s[..i] == [s[0]] + s[1..][..i - 1];
      i
  }

  /** `s.split(':')`. */
  function Split(s: string): (fields: seq<string>)
    ensures |fields| > 0
    decreases |s|
  {
    var i := FirstColon(s);
    if i == |s| then [s] else [s[..i]] + Split(s[i + 1..])
  }

  /** `fields.join(':')`. */
  function Join(fields: seq<string>): string
    requires |fields| > 0
  {
    if |fields| == 1 then fields[0] else fields[0] + [COLON] + Join(fields[1..])
  }

  /** The colon is the first colon of `a + ":" + b` when `a` has none. */
  lemma FirstColonAfter(a: string, b: string)
    requires NoColon(a)
    ensures FirstColon(a + [COLON] + b) == |a|
  {
    var s := a + [COLON] + b;
    assert s[|a|] == COLON;
    assert s[..|a|] == a;
  }

  /** A colon-free string is a single field. */
  lemma SplitNoColon(s: string)
    requires NoColon(s)
    ensures Split(s) == [s]
  {
  }

  /** Splitting `a + ":" + b` for a colon-free `a` gives `a`, then the fields of `b`. */
  lemma SplitCons(a: string, b: string)
    requires NoColon(a)
    ensures Split(a + [COLON] + b) == [a] + Split(b)
  {
    var s := a + [COLON] + b;
    FirstColonAfter(a, b);
    assert s[..|a|] == a;
    assert s[|a| + 1..] == b;
  }

  /** Joining a field in front of a non-empty run puts one colon between them. */
  lemma JoinCons(a: string, rest: seq<string>)
    requires |rest| > 0
    ensures Join([a] + rest) == a + [COLON] + Join(rest)
  {
    assert ([a] + rest)[1..] == rest;
  }

  /** Splitting a joined run of colon-free fields gives back the fields. */
  lemma {:induction false} SplitJoin(fields: seq<string>)
    requires |fields| > 0
    requires forall k :: 0 <= k < |fields| ==> NoColon(fields[k])
    ensures Split(Join(fields)) == fields
    decreases |fields|
  {
    if |fields| == 1 {
      SplitNoColon(fields[0]);
    } else {
      var rest := fields[1..];
      assert fields == [fields[0]] + rest;
      JoinCons(fields[0], rest);
      SplitCons(fields[0], Join(rest));
      SplitJoin(rest);
    }
  }

  /** A string is what comes before position `i`, the character there, and what follows. */
  lemma ConcatAround(s: string, i: nat)
    requires i < |s|
    ensures s == s[..i] + [s[i]] + s[i + 1..]
  {
  }

  /** Joining the fields of a split gives back the string. */
  lemma {:induction false} JoinSplit(s: string)
    ensures Join(Split(s)) == s
    decreases |s|
  {
    var i := FirstColon(s);
    if i < |s| {
      var head, rest := s[..i], s[i + 1..];
      var fields := Split(rest);
      assert Split(s) == [head] + fields;
      JoinSplit(rest);
      JoinCons(head, fields);
      ConcatAround(s, i);
    } else {
      assert Split(s) == [s];
    }
  }

  /** Every field of a split is free of colons. */
  lemma {:induction false} SplitFieldsNoColon(s: string)
    ensures forall k :: 0 <= k < |Split(s)| ==> NoColon(Split(s)[k])
    decreases |s|
  {
    var i := FirstColon(s);
    if i < |s| {
      SplitFieldsNoColon(s[i + 1..]);
      assert Split(s)[1..] == Split(s[i + 1..]);
    }
  }

  /** The identifier is the join of its six colon-separated fields. */
  lemma DidFields(network: string, appId: string, publicKeyHex: string)
    ensures Did(network, appId, publicKeyHex) == Join(["did", "algo", network, "app", appId, publicKeyHex])
  {
    JoinCons(appId, [publicKeyHex]);
    JoinCons("app", [appId, publicKeyHex]);
    JoinCons(network, ["app", appId, publicKeyHex]);
    JoinCons("algo", [network, "app", appId, publicKeyHex]);
    JoinCons("did", ["algo", network, "app", appId, publicKeyHex]);
  }

  /** The parts of an identifier of the form `did:algo:<network>:app:<appId>:<hex>`, if it is one. */
  function ParseDid(did: string): (r: Option<DidParts>)
    ensures r.Some? ==> NoColon(r.value.network) && NoColon(r.value.appId) && NoColon(r.value.publicKeyHex)
  {
    var fields := Split(did);
    SplitFieldsNoColon(did);
    if |fields| == 6 && fields[0] == "did" && fields[1] == "algo" && fields[3] == "app"
    then Some(DidParts(fields[2], fields[4], fields[5]))
    else None
  }

  /** Parsing the identifier of colon-free parts recovers those parts. */
  lemma ParseDidOfDid(network: string, appId: string, publicKeyHex: string)
    requires NoColon(network) && NoColon(appId) && NoColon(publicKeyHex)
    ensures ParseDid(Did(network, appId, publicKeyHex)) == Some(DidParts(network, appId, publicKeyHex))
  {
    var fields := ["did", "algo", network, "app", appId, publicKeyHex];
    DidFields(network, appId, publicKeyHex);
    assert NoColon("did") && NoColon("algo") && NoColon("app");
    SplitJoin(fields);
  }

  /** An identifier that parses is the identifier built from its parts. */
  lemma DidOfParseDid(did: string)
    requires ParseDid(did).Some?
    ensures var p := ParseDid(did).value; Did(p.network, p.appId, p.publicKeyHex) == did
  {
    var fields := Split(did);
    JoinSplit(did);
    DidFields(fields[2], fields[4], fields[5]);
    assert fields == ["did", "algo", fields[2], "app", fields[4], fields[5]];
  }

  /**
   * The identifier of a document built for a network and an app whose names
   * have no colon, and a key in hex, parses back to those three inputs.
   */
  lemma CreatedDocumentIdParses(network: string, appId: string, publicKeyHex: string)
    requires NoColon(network) && NoColon(appId) && IsLowerHex(publicKeyHex)
    ensures ParseDid(CreateDidDocument(network, appId, publicKeyHex).id) == Some(DidParts(network, appId, publicKeyHex))
  {
    HexHasNoColon(publicKeyHex);
    ParseDidOfDid(network, appId, publicKeyHex);
  }
}
