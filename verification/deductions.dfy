/**
 * Pre-tax and post-tax paycheck deductions (src/deductions.rs). Each kind
 * of deduction carries an optional amount per pay period; an absent amount
 * counts as zero. The two kinds are separate types, so a post-tax item can
 * never be summed into the pre-tax total (both have their own Roth401K).
 * A collection owns a list that `Add...` extends in place.
 */
module Deductions {
  import opened Amounts

  /** Deductions applied before federal tax is computed. */
  datatype PreTaxDeduction =
    | Medical(amount: Option<real>)
    | Dental(amount: Option<real>)
    | Vision(amount: Option<real>)
    | Traditional401K(amount: Option<real>)
    | Roth401K(amount: Option<real>)
    | HSA(amount: Option<real>)
    | FSA(amount: Option<real>)

  /** Deductions applied after federal tax is computed. */
  datatype PostTaxDeduction =
    | Roth401K(amount: Option<real>)
    | VoluntaryLife(amount: Option<real>)
    | VoluntaryADD(amount: Option<real>)
    | VoluntarySTD(amount: Option<real>)
    | VoluntaryLTD(amount: Option<real>)
    | WageGarnishment(amount: Option<real>)

  /** What a pre-tax item contributes to the total. */
  function PreTaxAmount(deduction: PreTaxDeduction): real
  {
    UnwrapOrZero(deduction.amount)
  }

  /** What a post-tax item contributes to the total. */
  function PostTaxAmount(deduction: PostTaxDeduction): real
  {
    UnwrapOrZero(deduction.amount)
  }

  /** A collection of pre-tax deductions. */
  class PreTaxDeductions {
    var pretaxDeductions: seq<PreTaxDeduction>

    /** Creates a collection holding exactly the given items, in order. */
    constructor (deductions: seq<PreTaxDeduction>)
      ensures GetPretaxDeductions() == deductions
      ensures TotalPretaxDeductions() == Sum(deductions, PreTaxAmount)
    {
      pretaxDeductions := deductions;
    }

    /** The items of the collection, in order. */
    function GetPretaxDeductions(): seq<PreTaxDeduction>
      reads this
    {
      pretaxDeductions
    }

    /**
     * Appends the given items after the existing ones; the total grows by
     * exactly the total of the added items.
     */
    method AddPretaxDeductions(deductions: seq<PreTaxDeduction>)
      modifies this
      ensures GetPretaxDeductions() == old(GetPretaxDeductions()) + deductions
      ensures |GetPretaxDeductions()| == old(|GetPretaxDeductions()|) + |deductions|
      ensures TotalPretaxDeductions() == old(TotalPretaxDeductions()) + Sum(deductions, PreTaxAmount)
    {
      SumConcat(pretaxDeductions, deductions, PreTaxAmount);
      pretaxDeductions := pretaxDeductions + deductions;
    }

    /**
     * The total of the collection, accumulated item by item from 0: the sum
     * of the amounts, an absent amount counting as 0.
     */
    function TotalPretaxDeductions(): (total: real)
      reads this
      ensures total == Sum(pretaxDeductions, PreTaxAmount)
    {
      FoldSum(0.0, pretaxDeductions, PreTaxAmount)
    }
  }

  /** A collection of post-tax deductions. */
  class PostTaxDeductions {
    var posttaxDeductions: seq<PostTaxDeduction>

    /** Creates a collection holding exactly the given items, in order. */
    constructor (deductions: seq<PostTaxDeduction>)
      ensures GetPosttaxDeductions() == deductions
      ensures TotalPosttaxDeductions() == Sum(deductions, PostTaxAmount)
    {
      posttaxDeductions := deductions;
    }

    /** The items of the collection, in order. */
    function GetPosttaxDeductions(): seq<PostTaxDeduction>
      reads this
    {
      posttaxDeductions
    }

    /**
     * Appends the given items after the existing ones; the total grows by
     * exactly the total of the added items.
     */
    method AddPosttaxDeductions(deductions: seq<PostTaxDeduction>)
      modifies this
      ensures GetPosttaxDeductions() == old(GetPosttaxDeductions()) + deductions
      ensures |GetPosttaxDeductions()| == old(|GetPosttaxDeductions()|) + |deductions|
      ensures TotalPosttaxDeductions() == old(TotalPosttaxDeductions()) + Sum(deductions, PostTaxAmount)
    {
      SumConcat(posttaxDeductions, deductions, PostTaxAmount);
      posttaxDeductions := posttaxDeductions + deductions;
    }

    /**
     * The total of the collection, accumulated item by item from 0: the sum
     * of the amounts, an absent amount counting as 0.
     */
    function TotalPosttaxDeductions(): (total: real)
      reads this
      ensures total == Sum(posttaxDeductions, PostTaxAmount)
    {
      FoldSum(0.0, posttaxDeductions, PostTaxAmount)
    }
  }

  /** Two pre-tax collections holding the same items in any order have the same total. */
  lemma PretaxTotalIndependentOfOrder(a: PreTaxDeductions, b: PreTaxDeductions)
    requires multiset(a.GetPretaxDeductions()) == multiset(b.GetPretaxDeductions())
    ensures a.TotalPretaxDeductions() == b.TotalPretaxDeductions()
  {
    SumPermutation(a.pretaxDeductions, b.pretaxDeductions, PreTaxAmount);
  }

  /** Two post-tax collections holding the same items in any order have the same total. */
  lemma PosttaxTotalIndependentOfOrder(a: PostTaxDeductions, b: PostTaxDeductions)
    requires multiset(a.GetPosttaxDeductions()) == multiset(b.GetPosttaxDeductions())
    ensures a.TotalPosttaxDeductions() == b.TotalPosttaxDeductions()
  {
    SumPermutation(a.posttaxDeductions, b.posttaxDeductions, PostTaxAmount);
  }

  /** Medical $150, Dental $50 and Traditional 401(k) $200: three items totalling $400. */
  method PretaxTotalExample() returns (total: real, count: nat)
    ensures total == 400.0 && count == 3
  {
    var deductions := new PreTaxDeductions([Medical(Some(150.0)), Dental(Some(50.0)), Traditional401K(Some(200.0))]);
    total := deductions.TotalPretaxDeductions();
    count := |deductions.GetPretaxDeductions()|;
  }

  /** Medical $150, then Dental $50 and Traditional 401(k) $200 added: $400. */
  method AddPretaxExample() returns (total: real)
    ensures total == 400.0
  {
    var deductions := new PreTaxDeductions([Medical(Some(150.0))]);
    deductions.AddPretaxDeductions([Dental(Some(50.0)), Traditional401K(Some(200.0))]);
    total := deductions.TotalPretaxDeductions();
  }

  /** Voluntary life $30, STD $22, LTD $34 and a $600 garnishment: four items totalling $686. */
  method PosttaxTotalExample() returns (total: real, count: nat)
    ensures total == 686.0 && count == 4
  {
    var deductions := new PostTaxDeductions([VoluntaryLife(Some(30.0)), VoluntarySTD(Some(22.0)),
                                             VoluntaryLTD(Some(34.0)), WageGarnishment(Some(600.0))]);
    total := deductions.TotalPosttaxDeductions();
    count := |deductions.GetPosttaxDeductions()|;
  }

  /** Voluntary life $30, then STD $22, LTD $34 and a $600 garnishment added: $686. */
  method AddPosttaxExample() returns (total: real)
    ensures total == 686.0
  {
    var deductions := new PostTaxDeductions([VoluntaryLife(Some(30.0))]);
    deductions.AddPosttaxDeductions([VoluntarySTD(Some(22.0)), VoluntaryLTD(Some(34.0)), WageGarnishment(Some(600.0))]);
    total := deductions.TotalPosttaxDeductions();
  }
}
