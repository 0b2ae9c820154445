/**
 * The stack view's resource classifier: a stack's fetched resources are put
 * into three buckets (Lambda functions, Step Functions state machines and
 * API Gateway REST APIs) by an exact match on their type tag; every other
 * resource is dropped. Each bucket keeps the fetch order.
 */
module StackView {
  import opened Wrappers
  import opened CloudFormation

  /** The three display categories. */
  datatype Bucket = Lambdas | StateMachines | Apis

  /** The classified resources of one stack. */
  datatype Resources = Resources(
    lambdas: seq<StackResource>,
    stateMachines: seq<StackResource>,
    apis: seq<StackResource>)
  {
    function Get(b: Bucket): seq<StackResource> {
      match b
      case Lambdas => lambdas
      case StateMachines => stateMachines
      case Apis => apis
    }
  }

  /** The type tag each bucket is matched against, in the order the match tries them. */
  datatype TypeTags = TypeTags(lambda: string, stateMachine: string, api: string)
  {
    predicate Distinct() {
      lambda != stateMachine && lambda != api && stateMachine != api
    }
  }

  /** The tags the classifier is written with; the third is not a CloudFormation type. */
  const AsWrittenTags := TypeTags("AWS::Lambda::Function", "AWS::StepFunctions::StateMachine", "AWS::ApiGatewayRestApi")

  /** The CloudFormation type names of the three categories. */
  const CloudFormationTags := TypeTags("AWS::Lambda::Function", "AWS::StepFunctions::StateMachine", "AWS::ApiGateway::RestApi")

  /**
   * The bucket a type tag selects: the arms are tried in order with exact
   * string equality; any other tag, and a missing one, select no bucket.
   */
  function BucketOf(tags: TypeTags, resourceType: Option<string>): (r: Option<Bucket>)
    ensures r == Some(Lambdas) <==> resourceType == Some(tags.lambda)
    ensures r == Some(StateMachines) <==>
      resourceType == Some(tags.stateMachine) && tags.stateMachine != tags.lambda
    ensures r == Some(Apis) <==>
      resourceType == Some(tags.api) && tags.api != tags.lambda && tags.api != tags.stateMachine
    ensures r.None? <==>
      resourceType.None? || resourceType.value !in {tags.lambda, tags.stateMachine, tags.api}
  {
    match resourceType
    case None => None
    case Some(t) =>
      if t == tags.lambda then Some(Lambdas)
      else if t == tags.stateMachine then Some(StateMachines)
      else if t == tags.api then Some(Apis)
      else None
  }

  predicate InBucket(tags: TypeTags, r: StackResource, b: Bucket) {
    BucketOf(tags, r.resourceType) == Some(b)
  }

  /** The resources of `rs` that fall in bucket `b`, in the order of `rs`. */
  function Filter(tags: TypeTags, rs: seq<StackResource>, b: Bucket): (r: seq<StackResource>)
    ensures |r| <= |rs|
    ensures forall x :: x in r ==> InBucket(tags, x, b)
    decreases |rs|
  {
    if rs == [] then []
    else
      var last := rs[|rs| - 1];
      Filter(tags, rs[..|rs| - 1], b) + (if InBucket(tags, last, b) then [last] else [])
  }

  /** The positions in `rs` of the resources that fall in bucket `b`, increasing. */
  function Positions(tags: TypeTags, rs: seq<StackResource>, b: Bucket): seq<nat>
    decreases |rs|
  {
    if rs == [] then []
    else
      Positions(tags, rs[..|rs| - 1], b) + (if InBucket(tags, rs[|rs| - 1], b) then [|rs| - 1] else [])
  }

  /** The resources of `rs` that fall in some bucket, in the order of `rs`. */
  function Recognized(tags: TypeTags, rs: seq<StackResource>): seq<StackResource>
    decreases |rs|
  {
    if rs == [] then []
    else
      var last := rs[|rs| - 1];
      Recognized(tags, rs[..|rs| - 1]) + (if BucketOf(tags, last.resourceType).Some? then [last] else [])
  }

  /** What sorting a list of resources yields. */
  function Classify(tags: TypeTags, rs: seq<StackResource>): (r: Resources)
    ensures rs == [] ==> r == Resources([], [], [])
    ensures forall x :: x in r.lambdas ==> x !in r.stateMachines && x !in r.apis
    ensures forall x :: x in r.stateMachines ==> x !in r.apis
  {
    Resources(Filter(tags, rs, Lambdas), Filter(tags, rs, StateMachines), Filter(tags, rs, Apis))
  }

  /**
   * `Stack::sort`: start from three empty buckets and push each resource, in
   * input order, onto the bucket its type tag selects.
   */
  method Sort(tags: TypeTags, resources: seq<StackResource>) returns (sorted: Resources)
    ensures sorted == Classify(tags, resources)
  {
    sorted := Resources([], [], []);
    for i := 0 to |resources|
      invariant sorted == Classify(tags, resources[..i])
    {
      var resource := resources[i];
      assert resources[..i + 1][..i] == resources[..i];
      match resource.resourceType
      case Some(t) =>
        if t == tags.lambda {
          sorted := sorted.(lambdas := sorted.lambdas + [resource]);
        } else if t == tags.stateMachine {
          sorted := sorted.(stateMachines := sorted.stateMachines + [resource]);
        } else if t == tags.api {
          sorted := sorted.(apis := sorted.apis + [resource]);
        }
      case None =>
    }
    assert resources[..|resources|] == resources;
  }

  /** A stack and its classified resources, built once its resources are fetched. */
  class Stack {
    const stackSummary: StackSummary
    const resources: Resources

    /** `Stack::new` once the fetch has returned `fetched`: sorted with the tags as written. */
    constructor (stackSummary: StackSummary, fetched: seq<StackResource>)
      ensures this.stackSummary == stackSummary
      ensures resources == Classify(AsWrittenTags, fetched)
    {
      this.stackSummary := stackSummary;
      var sorted := Sort(AsWrittenTags, fetched);
      resources := sorted;
    }
  }

  // ---------------------------------------------------------------------
  // Properties of the classification
  // ---------------------------------------------------------------------

  /** A bucket holds exactly the input resources whose tag selects it, and no more of them than the input. */
  lemma {:induction false} FilterMembers(tags: TypeTags, rs: seq<StackResource>, b: Bucket)
    ensures |Filter(tags, rs, b)| <= |rs|
    ensures forall x :: x in Filter(tags, rs, b) <==> x in rs && InBucket(tags, x, b)
  {
    if rs != [] {
      var init := rs[..|rs| - 1];
      FilterMembers(tags, init, b);
      assert rs == init + [rs[|rs| - 1]];
    }
  }

  /**
   * Order preservation: bucket `b` is the input read at an increasing list of
   * positions, and those are exactly the positions whose tag selects `b`.
   */
  lemma {:induction false} FilterIsOrderedSelection(tags: TypeTags, rs: seq<StackResource>, b: Bucket)
    ensures var ps := Positions(tags, rs, b);
      |ps| == |Filter(tags, rs, b)|
      && (forall p :: 0 <= p < |ps| ==> ps[p] < |rs| && Filter(tags, rs, b)[p] == rs[ps[p]])
      && (forall p, q :: 0 <= p < q < |ps| ==> ps[p] < ps[q])
      && (forall k :: 0 <= k < |rs| ==> (k in ps <==> InBucket(tags, rs[k], b)))
  {
    if rs != [] {
      var init := rs[..|rs| - 1];
      FilterIsOrderedSelection(tags, init, b);
      var ps0 := Positions(tags, init, b);
      var ps := Positions(tags, rs, b);
      assert forall p :: 0 <= p < |ps0| ==> ps[p] == ps0[p];
      assert forall k :: 0 <= k < |init| ==> rs[k] == init[k];
    }
  }

  /** If `rs[i]` precedes `rs[j]` and both fall in bucket `b`, `rs[i]` precedes `rs[j]` in that bucket. */
  lemma RelativeOrderKept(tags: TypeTags, rs: seq<StackResource>, b: Bucket, i: nat, j: nat)
    requires i < j < |rs|
    requires InBucket(tags, rs[i], b) && InBucket(tags, rs[j], b)
    ensures exists p, q :: 0 <= p < q < |Filter(tags, rs, b)|
                           && Filter(tags, rs, b)[p] == rs[i] && Filter(tags, rs, b)[q] == rs[j]
  {
    FilterIsOrderedSelection(tags, rs, b);
    var ps := Positions(tags, rs, b);
    assert i in ps && j in ps;
    var p :| 0 <= p < |ps| && ps[p] == i;
    var q :| 0 <= q < |ps| && ps[q] == j;
    assert p < q;
    assert Filter(tags, rs, b)[p] == rs[i] && Filter(tags, rs, b)[q] == rs[j];
  }

  /** The bucket sizes add up to the number of recognised inputs, which is at most the input size. */
  lemma {:induction false} BucketSizes(tags: TypeTags, rs: seq<StackResource>)
    ensures var sorted := Classify(tags, rs);
      |sorted.lambdas| + |sorted.stateMachines| + |sorted.apis| == |Recognized(tags, rs)| <= |rs|
  {
    if rs != [] {
      BucketSizes(tags, rs[..|rs| - 1]);
    }
  }

  /** No resource value sits in two different buckets. */
  lemma BucketsDisjoint(tags: TypeTags, rs: seq<StackResource>, x: StackResource, b1: Bucket, b2: Bucket)
    requires x in Classify(tags, rs).Get(b1) && x in Classify(tags, rs).Get(b2)
    ensures b1 == b2
  {
    FilterMembers(tags, rs, b1);
    FilterMembers(tags, rs, b2);
  }

  /**
   * With distinct tags, each bucket holds exactly the inputs whose type is
   * literally that bucket's tag, and nothing else.
   */
  lemma BucketsMatchExactly(tags: TypeTags, rs: seq<StackResource>)
    requires tags.Distinct()
    ensures forall x :: x in Classify(tags, rs).lambdas <==> x in rs && x.resourceType == Some(tags.lambda)
    ensures forall x :: x in Classify(tags, rs).stateMachines <==> x in rs && x.resourceType == Some(tags.stateMachine)
    ensures forall x :: x in Classify(tags, rs).apis <==> x in rs && x.resourceType == Some(tags.api)
  {
    FilterMembers(tags, rs, Lambdas);
    FilterMembers(tags, rs, StateMachines);
    FilterMembers(tags, rs, Apis);
  }

  /** A resource with no type, or with a type that is none of the tags, is in no bucket. */
  lemma UnrecognizedDropped(tags: TypeTags, rs: seq<StackResource>, x: StackResource)
    requires x.resourceType.None? || x.resourceType.value !in {tags.lambda, tags.stateMachine, tags.api}
    ensures x !in Classify(tags, rs).lambdas
    ensures x !in Classify(tags, rs).stateMachines
    ensures x !in Classify(tags, rs).apis
  {
    FilterMembers(tags, rs, Lambdas);
    FilterMembers(tags, rs, StateMachines);
    FilterMembers(tags, rs, Apis);
  }

  /** Sorting an empty list gives three empty buckets. */
  lemma EmptyInputEmptyBuckets(tags: TypeTags)
    ensures Classify(tags, []) == Resources([], [], [])
  {
  }

  // ---------------------------------------------------------------------
  // The API Gateway tag as written
  // ---------------------------------------------------------------------

  /** A REST API resource, typed as CloudFormation reports it, is dropped by the tags as written. */
  lemma AsWrittenDropsRestApis(rs: seq<StackResource>)
    ensures forall x: StackResource :: x.resourceType == Some("AWS::ApiGateway::RestApi") ==>
      x !in Classify(AsWrittenTags, rs).apis && x !in Classify(AsWrittenTags, rs).lambdas
      && x !in Classify(AsWrittenTags, rs).stateMachines
  {
    forall x: StackResource | x.resourceType == Some("AWS::ApiGateway::RestApi")
      ensures x !in Classify(AsWrittenTags, rs).apis && x !in Classify(AsWrittenTags, rs).lambdas
              && x !in Classify(AsWrittenTags, rs).stateMachines
    {
      UnrecognizedDropped(AsWrittenTags, rs, x);
    }
  }

  /** The concrete input: one REST API resource gives three empty buckets as written. */
  lemma AsWrittenRestApiExample()
    ensures var api := StackResource(Some("OrdersApi"), Some("AWS::ApiGateway::RestApi"));
      Classify(AsWrittenTags, [api]) == Resources([], [], [])
  {
    var api := StackResource(Some("OrdersApi"), Some("AWS::ApiGateway::RestApi"));
    assert [api][..0] == [];
  }

  /** With the CloudFormation tags, the `apis` bucket holds exactly the REST API resources. */
  lemma CorrectedKeepsRestApis(rs: seq<StackResource>)
    ensures forall x :: x in Classify(CloudFormationTags, rs).apis <==>
      x in rs && x.resourceType == Some("AWS::ApiGateway::RestApi")
  {
    assert CloudFormationTags.Distinct();
    BucketsMatchExactly(CloudFormationTags, rs);
  }
}
