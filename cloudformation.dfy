/**
 * The CloudFormation SDK records the core reads. Only the fields the core
 * looks at are kept; every one of them is optional in the SDK.
 */
module CloudFormation {
  import opened Wrappers

  /** One stack of the account, as listed at start-up. */
  datatype StackSummary = StackSummary(stackId: Option<string>, stackName: Option<string>)

  /** One resource of a stack, as fetched for that stack. */
  datatype StackResource = StackResource(logicalResourceId: Option<string>, resourceType: Option<string>)
}
