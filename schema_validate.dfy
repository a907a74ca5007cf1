/** The schema comparison of the CSV validator: the columns of a produced
    file are compared with those of a reference sample, and in strict mode
    any difference ends the run with exit code 1. Columns are the header
    names in file order. */
module SchemaValidate {
  import opened Seqs

  /** The three lists of `compare_schema`; the order list holds the single
      fixed message when the column sequences differ. */
  datatype SchemaDiff = SchemaDiff(missingInCurrent: seq<string>, extraInCurrent: seq<string>,
                                   orderMismatch: seq<string>)

  const OrderMessage: string := "Column order differs"

  function NotIn(cols: seq<string>): string -> bool
  {
    (c: string) => c !in cols
  }

  /** `compare_schema`. */
  function CompareSchema(sample: seq<string>, current: seq<string>): (d: SchemaDiff)
    ensures forall c :: c in d.missingInCurrent <==> c in sample && c !in current
    ensures forall c :: c in d.extraInCurrent <==> c in current && c !in sample
    ensures |d.orderMismatch| > 0 <==> sample != current
    ensures d.orderMismatch == [] || d.orderMismatch == [OrderMessage]
  {
    var missing := Filter(sample, NotIn(current));
    var extra := Filter(current, NotIn(sample));
    FilterElementsIff(sample, NotIn(current));
    FilterElementsIff(current, NotIn(sample));
    SchemaDiff(missing, extra, if sample != current then [OrderMessage] else [])
  }

  lemma FilterElementsIff(s: seq<string>, p: string -> bool)
    ensures forall c :: c in Filter(s, p) <==> c in s && p(c)
  {
    forall c ensures c in Filter(s, p) <==> c in s && p(c) {
      FilterMembership(s, p, c);
    }
  }

  /** `has_schema_issue`: some list is non-empty. */
  predicate HasSchemaIssue(d: SchemaDiff)
  {
    |d.missingInCurrent| > 0 || |d.extraInCurrent| > 0 || |d.orderMismatch| > 0
  }

  /** There is a schema issue exactly when the column sequences differ;
      identical sequences give three empty lists. */
  lemma SchemaIssueIffDiffer(sample: seq<string>, current: seq<string>)
    ensures HasSchemaIssue(CompareSchema(sample, current)) <==> sample != current
    ensures sample == current ==>
      CompareSchema(sample, current) == SchemaDiff([], [], [])
  {
    if sample == current {
      FilterNone(sample, NotIn(current));
    }
  }

  /** The same columns in another order are reported only as an order
      mismatch. */
  lemma ReorderedColumns(sample: seq<string>, current: seq<string>)
    requires sample != current
    requires forall c :: c in sample <==> c in current
    ensures CompareSchema(sample, current) == SchemaDiff([], [], [OrderMessage])
  {
    FilterNone(sample, NotIn(current));
    FilterNone(current, NotIn(sample));
  }

  // ---------------------------------------------------------------------
  // The exit decision of main

  /** The outcome of `compare_values`: the key column missing from one of
      the files, or the count of differing values per common column. */
  datatype ValueComparison = KeyColumnMissing | Compared(mismatches: map<string, nat>)

  /** How `main` ends after the comparisons: exit code 2 on a missing key
      column, exit code 1 in strict mode when the schema or any value
      differs, otherwise normally (code 0). */
  function ExitCode(strict: bool, schema: SchemaDiff, values: ValueComparison): (code: int)
    ensures code == 2 <==> values.KeyColumnMissing?
    ensures code == 1 <==>
      values.Compared? && strict && (HasSchemaIssue(schema) || |values.mismatches| > 0)
    ensures code == 0 || code == 1 || code == 2
  {
    match values
    case KeyColumnMissing => 2
    case Compared(mismatches) =>
      if strict && (HasSchemaIssue(schema) || |mismatches| > 0) then 1 else 0
  }

  /** Without strict mode, differences never fail the run; in strict mode,
      differing column sequences always do once the values are compared. */
  lemma StrictExitOnColumns(strict: bool, sample: seq<string>, current: seq<string>, values: ValueComparison)
    requires values.Compared?
    ensures !strict ==> ExitCode(strict, CompareSchema(sample, current), values) == 0
    ensures strict && sample != current ==> ExitCode(strict, CompareSchema(sample, current), values) == 1
  {
    SchemaIssueIffDiffer(sample, current);
  }
}
