/**
 The transaction sub-type taxonomy of Oregon's ORESTAR reporting guide, as the
 analysis script hard-codes it: every known sub-type label is either income
 (sign +1) or spending (sign -1); any other label is untracked.
 */
module Taxonomy {

  /** The label-to-sign table, verbatim. Labels are exact, case-sensitive
      strings; the misspelled key "Forgiveen Account Payable" is part of it. */
  const TransactionT: map<string, int> := map[
    "Cash Contribution" := 1,
    "In-Kind Contribution" := 1,
    "In-Kind Personal Expenditure" := 1,
    "Forgiven Personal Expenditures" := 1,
    "In-Kind Account Payable" := 1,
    "Forgiveen Account Payable" := 1,
    "Items Sold at Fair Market Value" := 1,
    "Loan Received" := 1,
    "Lost or Returned Check" := 1,
    "Refunds or Rebates" := 1,
    "Miscellaneous Other Receipt" := 1,
    "Cash Expenditure" := -1,
    "Personal Expenditure for Reimbursement" := -1,
    "Account Payable" := -1,
    "Loan Payment" := -1,
    "Return or Refund of Contribution" := -1,
    "Miscellaneous Other Disbursement" := -1
  ]

  /** The eleven income labels, listed independently of the table. */
  const IncomeLabels: set<string> := {
    "Cash Contribution",
    "In-Kind Contribution",
    "In-Kind Personal Expenditure",
    "Forgiven Personal Expenditures",
    "In-Kind Account Payable",
    "Forgiveen Account Payable",
    "Items Sold at Fair Market Value",
    "Loan Received",
    "Lost or Returned Check",
    "Refunds or Rebates",
    "Miscellaneous Other Receipt"
  }

  /** The six spending labels, listed independently of the table. */
  const SpendingLabels: set<string> := {
    "Cash Expenditure",
    "Personal Expenditure for Reimbursement",
    "Account Payable",
    "Loan Payment",
    "Return or Refund of Contribution",
    "Miscellaneous Other Disbursement"
  }

  /** What the script does with a row, decided by its sub-type label alone. */
  datatype Kind = Income | Spending | Untracked

  /** The script's dispatch: a label absent from the table is untracked,
      sign +1 is income and any other sign is spending. */
  function Classify(subType: string): (k: Kind)
  {
    if subType !in TransactionT then Untracked
    else if TransactionT[subType] == 1 then Income
    else Spending
  }

  /** The dispatch sends exactly the eleven income labels to income, exactly
      the six spending labels to spending, and every other string, whatever
      its case or spelling, to the untracked counter. */
  lemma ClassifyByLabels(subType: string)
    ensures Classify(subType) == Income <==> subType in IncomeLabels
    ensures Classify(subType) == Spending <==> subType in SpendingLabels
    ensures Classify(subType) == Untracked <==> subType !in IncomeLabels + SpendingLabels
  {
  }

  /** The table's keys are exactly the eleven income labels and the six
      spending labels, and no label is both. */
  lemma TaxonomyShape()
    ensures TransactionT.Keys == IncomeLabels + SpendingLabels
    ensures IncomeLabels !! SpendingLabels
  {
    KeysAreLabels();
    LabelsAreKeys();
    LabelsDisjoint();
  }

  lemma KeysAreLabels()
    ensures TransactionT.Keys <= IncomeLabels + SpendingLabels
  {
  }

  lemma LabelsAreKeys()
    ensures IncomeLabels + SpendingLabels <= TransactionT.Keys
  {
  }

  lemma LabelsDisjoint()
    ensures IncomeLabels !! SpendingLabels
  {
  }

  /** Every income label has sign +1 and every spending label sign -1. */
  lemma TaxonomySigns()
    ensures forall l :: l in IncomeLabels ==> TransactionT[l] == 1
    ensures forall l :: l in SpendingLabels ==> TransactionT[l] == -1
  {
  }

  /** Eleven distinct income labels and six distinct spending labels. */
  lemma TaxonomySize()
    ensures |IncomeLabels| == 11 && |SpendingLabels| == 6
  {
    IncomeLabelCount();
    SpendingLabelCount();
  }

  lemma IncomeLabelCount()
    ensures |IncomeLabels| == 11
  {
  }

  lemma SpendingLabelCount()
    ensures |SpendingLabels| == 6
  {
  }

  /** The sign of every tracked label is +1 or -1. */
  lemma SignsAreUnit(subType: string)
    requires subType in TransactionT
    ensures TransactionT[subType] == 1 || TransactionT[subType] == -1
  {
  }

  /** Because the table keeps the misspelling, a row labelled with the
      correctly spelled "Forgiven Account Payable" is untracked. */
  lemma CorrectSpellingIsUntracked()
    ensures Classify("Forgiveen Account Payable") == Income
    ensures Classify("Forgiven Account Payable") == Untracked
  {
  }
}
