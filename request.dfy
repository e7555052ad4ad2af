/**
 * The outbound request to the image-generation endpoint, as both the page
 * (src/app/page.tsx) and the proxy route (src/app/api/generate/route.ts)
 * build it: the form fields, the headers, and what the HTTP call yields.
 */
module Request {
  import opened Wrappers
  import opened JsText
  import opened Types

  /** One form field: its name and its value. */
  type Field = (string, string)

  /** The fields the encoder can send. */
  datatype FieldName = Prompt | ModelField | AspectRatioField | NegativePrompt | Seed | CfgScale

  /** The order in which the fields are appended. */
  const FieldOrder: seq<FieldName> :=
    [Prompt, ModelField, AspectRatioField, NegativePrompt, Seed, CfgScale]

  const Endpoint := "https://api.stability.ai/v2beta/stable-image/generate/sd3"

  /** The name a field is sent under. */
  function Wire(n: FieldName): string {
    match n
    case Prompt => "prompt"
    case ModelField => "model"
    case AspectRatioField => "aspect_ratio"
    case NegativePrompt => "negative_prompt"
    case Seed => "seed"
    case CfgScale => "cfg_scale"
  }

  /** The field a wire name denotes, if any. */
  function NameOf(s: string): Option<FieldName> {
    if s == "prompt" then Some(Prompt)
    else if s == "model" then Some(ModelField)
    else if s == "aspect_ratio" then Some(AspectRatioField)
    else if s == "negative_prompt" then Some(NegativePrompt)
    else if s == "seed" then Some(Seed)
    else if s == "cfg_scale" then Some(CfgScale)
    else None
  }

  /** Every field has its own wire name. */
  lemma NameOfWire(n: FieldName)
    ensures NameOf(Wire(n)) == Some(n)
  {
  }

  /** Every field has a place in `FieldOrder`. */
  lemma FieldOrderComplete(n: FieldName)
    ensures n in FieldOrder
  {
  }

  /**
   * The value sent for field `n` of options `o`, or `None` when that field is
   * left out: `prompt` always goes; every other field only when truthy.
   */
  function FieldOf(o: GenerationOptions, n: FieldName): Option<string> {
    match n
    case Prompt => Some(o.prompt)
    case ModelField => if o.model.Some? then Some(ModelId(o.model.value)) else None
    case AspectRatioField => if o.aspectRatio.Some? then Some(AspectRatioId(o.aspectRatio.value)) else None
    case NegativePrompt => if TruthyText(o.negativePrompt) then o.negativePrompt else None
    case Seed => if TruthyInt(o.seed) then Some(IntToDecimal(o.seed.value)) else None
    case CfgScale => if TruthyNumber(o.cfgScale) then Some(o.cfgScale.value.text) else None
  }

  /** The field `n`, as a list of zero or one entries. */
  function Entry(o: GenerationOptions, n: FieldName): (r: seq<Field>)
    ensures |r| <= 1 && forall i :: 0 <= i < |r| ==> r[i].0 == Wire(n)
  {
    match FieldOf(o, n)
    case Some(v) => [(Wire(n), v)]
    case None => []
  }

  /** The fields for `names`, in that order, skipping those left out. */
  function Select(o: GenerationOptions, names: seq<FieldName>): seq<Field> {
    if names == [] then [] else Entry(o, names[0]) + Select(o, names[1..])
  }

  lemma SelectStep(o: GenerationOptions, k: nat)
    requires k < |FieldOrder|
    ensures Select(o, FieldOrder[k..]) == Entry(o, FieldOrder[k]) + Select(o, FieldOrder[k + 1..])
  {
    assert FieldOrder[k..][1..] == FieldOrder[k + 1..];
  }

  /** The form body both call sites send for options `o`. */
  function FormFields(o: GenerationOptions): (r: seq<Field>)
    ensures 1 <= |r| <= |FieldOrder|
    ensures r[0] == ("prompt", o.prompt)
  {
    SelectLength(o, FieldOrder);
    Select(o, FieldOrder)
  }

  lemma {:induction false} SelectLength(o: GenerationOptions, names: seq<FieldName>)
    ensures |Select(o, names)| <= |names|
  {
    if names != [] {
      SelectLength(o, names[1..]);
    }
  }

  /**
   * The source's sequence of `formData.append` calls: `prompt`
   * unconditionally, then each optional field when it is truthy.
   */
  method BuildFormData(o: GenerationOptions) returns (fd: seq<Field>)
    ensures fd == FormFields(o)
  {
    assert FieldOrder[0..] == FieldOrder;
    fd := [];
    assert fd + Select(o, FieldOrder[0..]) == FormFields(o);
    Appended(o, fd, 0);
    fd := fd + [(Wire(Prompt), o.prompt)];
    Appended(o, fd, 1);
    fd := AppendIfSent(fd, o, ModelField);
    Appended(o, fd, 2);
    fd := AppendIfSent(fd, o, AspectRatioField);
    Appended(o, fd, 3);
    fd := AppendIfSent(fd, o, NegativePrompt);
    Appended(o, fd, 4);
    fd := AppendIfSent(fd, o, Seed);
    Appended(o, fd, 5);
    fd := AppendIfSent(fd, o, CfgScale);
    assert Select(o, FieldOrder[6..]) == [];
  }

  /**
   * `if (options.<n>) formData.append("<n>", value)`: appends the field when
   * `FieldOf` sends it.
   */
  method AppendIfSent(fd: seq<Field>, o: GenerationOptions, n: FieldName) returns (r: seq<Field>)
    ensures r == fd + Entry(o, n)
  {
    match FieldOf(o, n) {
      case Some(v) => r := fd + [(Wire(n), v)];
      case None => r := fd;
    }
  }

  /**
   * When `done` followed by the fields from `FieldOrder[k]` on make up the
   * body, appending field `k` leaves the fields after it to go.
   */
  lemma Appended(o: GenerationOptions, done: seq<Field>, k: nat)
    requires k < |FieldOrder|
    requires done + Select(o, FieldOrder[k..]) == FormFields(o)
    ensures (done + Entry(o, FieldOrder[k])) + Select(o, FieldOrder[k + 1..]) == FormFields(o)
  {
    SelectStep(o, k);
  }

  /** The body is the six entries in `FieldOrder`, concatenated. */
  lemma FormFieldsAsEntries(o: GenerationOptions)
    ensures FormFields(o) ==
      Entry(o, Prompt) + (Entry(o, ModelField) + (Entry(o, AspectRatioField)
      + (Entry(o, NegativePrompt) + (Entry(o, Seed) + Entry(o, CfgScale)))))
  {
    assert Select(o, FieldOrder[6..]) == [];
    SelectStep(o, 5);
    SelectStep(o, 4);
    SelectStep(o, 3);
    SelectStep(o, 2);
    SelectStep(o, 1);
    SelectStep(o, 0);
    assert FieldOrder[0..] == FieldOrder;
  }

  /** Options that agree on every field's wire value give the same body. */
  lemma {:induction false} SameFieldsSameSelect(o1: GenerationOptions, o2: GenerationOptions, names: seq<FieldName>)
    requires forall n :: n in names ==> FieldOf(o1, n) == FieldOf(o2, n)
    ensures Select(o1, names) == Select(o2, names)
  {
    if names != [] {
      SameFieldsSameSelect(o1, o2, names[1..]);
    }
  }

  lemma {:induction false} SelectContains(o: GenerationOptions, names: seq<FieldName>, n: FieldName, v: string)
    ensures (Wire(n), v) in Select(o, names) <==> n in names && FieldOf(o, n) == Some(v)
  {
    if names != [] {
      SelectContains(o, names[1..], n, v);
      NameOfWire(n);
      NameOfWire(names[0]);
      assert names == [names[0]] + names[1..];
    }
  }

  /**
   * A field is in the body exactly when `FieldOf` sends it, and then with that
   * value: so `prompt` is always there, and a field that is absent, `""` or
   * `0` is not.
   */
  lemma FieldSentIff(o: GenerationOptions, n: FieldName, v: string)
    ensures (Wire(n), v) in FormFields(o) <==> FieldOf(o, n) == Some(v)
  {
    SelectContains(o, FieldOrder, n, v);
    FieldOrderComplete(n);
  }

  /** The names in a list of fields, in order. */
  function Names(fields: seq<Field>): (ns: seq<string>)
    ensures |ns| == |fields|
  {
    if fields == [] then [] else [fields[0].0] + Names(fields[1..])
  }

  /** The wire names of `names`, in order. */
  function Wires(names: seq<FieldName>): seq<string> {
    if names == [] then [] else [Wire(names[0])] + Wires(names[1..])
  }

  /** `a` is `b` with some elements dropped and the rest kept in order. */
  predicate IsSubsequence(a: seq<string>, b: seq<string>)
    decreases |b|
  {
    a == []
    || (b != [] && ((a[0] == b[0] && IsSubsequence(a[1..], b[1..])) || IsSubsequence(a, b[1..])))
  }

  lemma {:induction false} SelectIsSubsequence(o: GenerationOptions, names: seq<FieldName>)
    ensures IsSubsequence(Names(Select(o, names)), Wires(names))
  {
    if names != [] {
      SelectIsSubsequence(o, names[1..]);
      var head := Entry(o, names[0]);
      var rest := Select(o, names[1..]);
      if head == [] {
        assert Select(o, names) == rest;
      } else {
        assert (head + rest)[1..] == rest;
        assert Names(head + rest)[1..] == Names(rest);
      }
    }
  }

  /**
   * The body's names keep the fixed order prompt, model, aspect_ratio,
   * negative_prompt, seed, cfg_scale, with the fields left out dropped.
   */
  lemma FormFieldsOrdered(o: GenerationOptions)
    ensures IsSubsequence(Names(FormFields(o)), Wires(FieldOrder))
    ensures Distinct(Names(FormFields(o)))
  {
    SelectIsSubsequence(o, FieldOrder);
    WiresOfFieldOrder();
    SubsequenceDistinct(Names(FormFields(o)), Wires(FieldOrder));
  }

  predicate Distinct(s: seq<string>) {
    forall i, j :: 0 <= i < j < |s| ==> s[i] != s[j]
  }

  lemma WiresOfFieldOrder()
    ensures Wires(FieldOrder) == ["prompt", "model", "aspect_ratio", "negative_prompt", "seed", "cfg_scale"]
    ensures Distinct(Wires(FieldOrder))
  {
    var f := FieldOrder;
    assert Wires(f[5..]) == ["cfg_scale"];
    assert f[4..][1..] == f[5..];
    assert Wires(f[4..]) == ["seed", "cfg_scale"];
    assert f[3..][1..] == f[4..];
    assert Wires(f[3..]) == ["negative_prompt", "seed", "cfg_scale"];
    assert f[2..][1..] == f[3..];
    assert Wires(f[2..]) == ["aspect_ratio", "negative_prompt", "seed", "cfg_scale"];
    assert f[1..][1..] == f[2..];
    assert Wires(f[1..]) == ["model", "aspect_ratio", "negative_prompt", "seed", "cfg_scale"];
    assert f[0..] == f;
  }

  lemma {:induction false} SubsequenceMembers(a: seq<string>, b: seq<string>, x: string)
    requires IsSubsequence(a, b) && x in a
    ensures x in b
    decreases |b|
  {
    if a[0] == b[0] && IsSubsequence(a[1..], b[1..]) {
      if x != a[0] {
        SubsequenceMembers(a[1..], b[1..], x);
      }
    } else {
      SubsequenceMembers(a, b[1..], x);
    }
  }

  /** What is kept from a list without repeats has no repeats. */
  lemma {:induction false} SubsequenceDistinct(a: seq<string>, b: seq<string>)
    requires IsSubsequence(a, b) && Distinct(b)
    ensures Distinct(a)
    decreases |b|
  {
    if a != [] {
      assert Distinct(b[1..]) by {
        forall i, j | 0 <= i < j < |b[1..]| ensures b[1..][i] != b[1..][j] {
          assert b[1..][i] == b[i + 1] && b[1..][j] == b[j + 1];
        }
      }
      if a[0] == b[0] && IsSubsequence(a[1..], b[1..]) {
        SubsequenceDistinct(a[1..], b[1..]);
        forall j | 0 < j < |a| ensures a[0] != a[j] {
          assert a[j] == a[1..][j - 1];
          SubsequenceMembers(a[1..], b[1..], a[j]);
        }
      } else {
        SubsequenceDistinct(a, b[1..]);
      }
    }
  }

  /**
   * The seed goes out exactly when it is present and non-zero, as its decimal
   * digits, which read back as the seed: a seed of 0 is not sent, a negative
   * seed is.
   */
  lemma SeedField(o: GenerationOptions, v: string)
    ensures ("seed", v) in FormFields(o) <==> o.seed.Some? && o.seed.value != 0 && v == IntToDecimal(o.seed.value)
    ensures ("seed", v) in FormFields(o) ==> ParseDecimal(v) == o.seed
  {
    FieldSentIff(o, Seed, v);
    if o.seed.Some? {
      DecimalRoundTrip(o.seed.value);
    }
  }

  /** A seed of 0 gives the same body as no seed at all. */
  lemma ZeroSeedIsUnset(o: GenerationOptions)
    ensures FormFields(o.(seed := Some(0))) == FormFields(o.(seed := None))
  {
    SameFieldsSameSelect(o.(seed := Some(0)), o.(seed := None), FieldOrder);
  }

  /** An empty negative prompt gives the same body as none at all. */
  lemma EmptyNegativePromptIsUnset(o: GenerationOptions)
    ensures FormFields(o.(negativePrompt := Some(""))) == FormFields(o.(negativePrompt := None))
  {
    SameFieldsSameSelect(o.(negativePrompt := Some("")), o.(negativePrompt := None), FieldOrder);
  }

  // ---------------------------------------------------------------------------
  // Headers and the request as a whole

  const BearerPrefix := "Bearer "

  /** The Authorization value for `token` (section 2.1 of RFC 6750). */
  function Bearer(token: string): (h: string)
    ensures |h| == |BearerPrefix| + |token|
    ensures h[..|BearerPrefix|] == BearerPrefix && h[|BearerPrefix|..] == token
  {
    BearerPrefix + token
  }

  /** The credential an Authorization value carries, if it is a Bearer one. */
  function BearerToken(h: string): (t: Option<string>)
    ensures t.Some? <==> |h| >= |BearerPrefix| && h[..|BearerPrefix|] == BearerPrefix
  {
    if |h| >= |BearerPrefix| && h[..|BearerPrefix|] == BearerPrefix then Some(h[|BearerPrefix|..]) else None
  }

  lemma BearerRoundTrip(token: string)
    ensures BearerToken(Bearer(token)) == Some(token)
  {
  }

  /** The headers sent with the form, in source order. */
  function Headers(authorization: string): (hs: seq<(string, string)>)
    ensures |hs| == 3 && hs[2] == ("Authorization", authorization)
    ensures ("Accept", "application/json") in hs
  {
    [("Content-Type", "multipart/form-data"),
     ("Accept", "application/json"),
     ("Authorization", authorization)]
  }

  /** A POST to `url` with a form body and headers. */
  datatype Outbound = Outbound(url: string, fields: seq<Field>, headers: seq<(string, string)>)

  /** The request sent for options `o` with credential text `token`. */
  function OutboundFor(o: GenerationOptions, token: string): (req: Outbound)
    ensures req.url == Endpoint && req.fields == FormFields(o)
    ensures |req.headers| == 3 && req.headers[2] == ("Authorization", Bearer(token))
    ensures ("Accept", "application/json") in req.headers
    ensures BearerToken(req.headers[2].1) == Some(token)
  {
    Outbound(Endpoint, FormFields(o), Headers(Bearer(token)))
  }

  // ---------------------------------------------------------------------------
  // What the HTTP call yields

  /** The members of the JSON reply that the page reads. */
  datatype ApiResponse = ApiResponse(image: Option<string>, finishReason: Option<string>, seed: Option<int>)

  /** What the HTTP client throws: an AxiosError (with the response status, if any) or anything else. */
  datatype Thrown = AxiosError(status: Option<int>) | OtherError

  /** How `axios.post` settles: a reply, or a thrown error. */
  datatype Outcome = Reply(data: ApiResponse) | Raised(error: Thrown)
}
