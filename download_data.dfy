/** The header check of the Tokyo clinic-list downloader
    (`clinic_data/tokyo/download_data.py`): the downloaded CSV is kept only
    when its first row names every required column. */
module DownloadData {

  /** Every required column occurs somewhere in the header row. */
  predicate HasRequiredColumns(required: seq<string>, header: seq<string>) {
    forall c <- required :: c in header
  }

  /** `_validate_header`: the loop over the required columns that returns
      False at the first one missing from the header row. */
  method ValidateHeader(required: seq<string>, header: seq<string>) returns (ok: bool)
    ensures ok == HasRequiredColumns(required, header)
    ensures !ok ==> exists i :: 0 <= i < |required| && required[i] !in header
  {
    for i := 0 to |required|
      invariant forall j :: 0 <= j < i ==> required[j] in header
    {
      if required[i] !in header {
        return false;
      }
    }
    return true;
  }

  /** `_validate`: only the first row of the downloaded CSV is checked; a
      file without rows never reaches the check and yields a falsy
      result. */
  method Validate(required: seq<string>, rows: seq<seq<string>>) returns (ok: bool)
    ensures ok <==> rows != [] && HasRequiredColumns(required, rows[0])
  {
    if rows == [] {
      return false;
    }
    ok := ValidateHeader(required, rows[0]);
  }

  /** With nothing required, every header row passes. */
  lemma NothingRequired(header: seq<string>)
    ensures HasRequiredColumns([], header)
  {
  }

  /** A required column missing from the header row fails the check. */
  lemma MissingColumnFails(required: seq<string>, header: seq<string>, c: string)
    requires c in required && c !in header
    ensures !HasRequiredColumns(required, header)
  {
  }

  /** Columns appended to the header row never turn a pass into a
      failure. */
  lemma ExtraColumnsKeepPass(required: seq<string>, header: seq<string>, extra: seq<string>)
    requires HasRequiredColumns(required, header)
    ensures HasRequiredColumns(required, header + extra)
    ensures HasRequiredColumns(required, extra + header)
  {
  }

  /** The names of a row, without order or repetition. */
  function Names(row: seq<string>): (names: set<string>)
    ensures forall c :: c in names <==> c in row
  {
    set c | c in row
  }

  /** `_validate_header` is a subset check: the required names are among
      the names of the header row. */
  lemma RequiredSubset(required: seq<string>, header: seq<string>)
    ensures HasRequiredColumns(required, header) <==> Names(required) <= Names(header)
  {
  }

  /** The check only sees which names occur: it does not depend on the
      order or the repetitions in either row. */
  lemma OnlyNamesMatter(required: seq<string>, header: seq<string>, required': seq<string>, header': seq<string>)
    requires Names(required) == Names(required') && Names(header) == Names(header')
    ensures HasRequiredColumns(required, header) == HasRequiredColumns(required', header')
  {
    RequiredSubset(required, header);
    RequiredSubset(required', header');
  }

  /** The required columns pass against a header row exactly when they
      pass against each of two halves of the required list. */
  lemma RequiredSplit(a: seq<string>, b: seq<string>, header: seq<string>)
    ensures HasRequiredColumns(a + b, header) <==> HasRequiredColumns(a, header) && HasRequiredColumns(b, header)
  {
    assert forall c :: c in a + b <==> c in a || c in b;
  }
}
