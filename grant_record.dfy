/** The `public_grants` row as the pages receive it; every nullable column is an `Option`. */
module GrantRecord {
  import opened Wrappers

  /**
   * Amounts are whole, non-negative numbers of euros. The similarity column
   * that the AI search adds is not part of this record.
   */
  datatype Grant = Grant(
    id: string,
    title: string,
    description: Option<string>,
    fundingBody: Option<string>,
    amountMin: Option<nat>,
    amountMax: Option<nat>,
    deadline: Option<string>,
    tags: Option<seq<string>>,
    applicationUrl: Option<string>,
    eligibleCountries: Option<seq<string>>,
    minTrl: Option<int>,
    maxTrl: Option<int>)
}
