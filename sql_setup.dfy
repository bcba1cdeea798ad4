/**
  The schema loader of the database setup script: the SQL text is cut into
  statements (comments removed, split on `;`, blanks dropped), each statement
  is executed (or only shown, in a dry run) and the run ends with exit code 1
  when any statement failed.
*/
module SqlSetup {
  import opened Text

  /** No two adjacent dashes anywhere in `s`. */
  predicate NoDoubleDash(s: string) {
    forall i :: 0 <= i < |s| - 1 ==> !(s[i] == '-' && s[i + 1] == '-')
  }

  lemma {:induction false} DoubleDashFound(s: string)
    requires Contains(s, "--")
    ensures !NoDoubleDash(s)
    decreases |s|
  {
    if !StartsWith(s, "--") {
      DoubleDashFound(s[1..]);
      var i :| 0 <= i < |s[1..]| - 1 && s[1..][i] == '-' && s[1..][i + 1] == '-';
      assert s[i + 1] == '-' && s[i + 2] == '-';
    } else {
      assert s[..2] == "--";
      assert s[0] == '-' && s[1] == '-';
    }
  }

  /** The rest of `s` from its first line break (or nothing, on the last line). */
  function FromLineEnd(s: string): (r: string)
    ensures |r| <= |s|
    ensures |r| == 0 || r[0] == '\n'
  {
    if |s| == 0 || s[0] == '\n' then s else FromLineEnd(s[1..])
  }

  /**
    `re.sub(r'--.*$', '', sql, flags=re.MULTILINE)`: every match starts at
    a "--" and runs up to (not including) the next line break; scanning goes
    on after the removed text.
  */
  function StripComments(s: string): (r: string)
    decreases |s|
  {
    if |s| == 0 then ""
    else if |s| >= 2 && s[0] == '-' && s[1] == '-' then StripComments(FromLineEnd(s[2..]))
    else [s[0]] + StripComments(s[1..])
  }

  lemma StripCommentsHead(s: string)
    requires |s| > 0 && !(|s| >= 2 && s[0] == '-' && s[1] == '-')
    ensures |StripComments(s)| > 0 && StripComments(s)[0] == s[0]
  {
  }

  lemma StripCommentsLineStart(s: string)
    requires |s| == 0 || s[0] == '\n'
    ensures |StripComments(s)| == 0 || StripComments(s)[0] == '\n'
  {
  }

  /** After comment removal no "--" is left. */
  lemma {:induction false} StripCommentsNoDoubleDash(s: string)
    ensures NoDoubleDash(StripComments(s))
    decreases |s|
  {
    if |s| == 0 {
    } else if |s| >= 2 && s[0] == '-' && s[1] == '-' {
      StripCommentsNoDoubleDash(FromLineEnd(s[2..]));
    } else {
      var rest := StripComments(s[1..]);
      StripCommentsNoDoubleDash(s[1..]);
      if |rest| > 0 && s[0] == '-' {
        StripCommentsHead(s[1..]);
      }
      assert StripComments(s) == [s[0]] + rest;
    }
  }

  lemma {:induction false} CountFromLineEnd(s: string, c: char)
    ensures Count(FromLineEnd(s), c) <= Count(s, c)
  {
    if |s| > 0 && s[0] != '\n' {
      CountFromLineEnd(s[1..], c);
    }
  }

  /** Removing comments never adds a character. */
  lemma {:induction false} CountStripComments(s: string, c: char)
    ensures Count(StripComments(s), c) <= Count(s, c)
    decreases |s|
  {
    if |s| == 0 {
    } else if |s| >= 2 && s[0] == '-' && s[1] == '-' {
      CountStripComments(FromLineEnd(s[2..]), c);
      CountFromLineEnd(s[2..], c);
      assert s[1..][1..] == s[2..];
    } else {
      CountStripComments(s[1..], c);
      assert ([s[0]] + StripComments(s[1..]))[1..] == StripComments(s[1..]);
    }
  }

  /** `[s.strip() for s in pieces if s.strip()]`. */
  function StrippedNonBlank(pieces: seq<string>): seq<string> {
    if |pieces| == 0 then []
    else if Strip(pieces[0]) != "" then [Strip(pieces[0])] + StrippedNonBlank(pieces[1..])
    else StrippedNonBlank(pieces[1..])
  }

  /** The pieces of the comment-free text between semicolons. */
  function Pieces(sql: string): seq<string> {
    Split(StripComments(sql), ';')
  }

  /** `split_sql_statements`. */
  function SplitSqlStatements(sql: string): seq<string> {
    StrippedNonBlank(Pieces(sql))
  }

  /** `xs` is `ys` with some elements dropped, order kept. */
  predicate SubsequenceOf<T(==)>(xs: seq<T>, ys: seq<T>)
    decreases |ys|
  {
    if |xs| == 0 then true
    else if |ys| == 0 then false
    else if xs[0] == ys[0] then SubsequenceOf(xs[1..], ys[1..])
    else SubsequenceOf(xs, ys[1..])
  }

  lemma {:induction false} StrippedNonBlankAreStripped(pieces: seq<string>)
    ensures forall st :: st in StrippedNonBlank(pieces) ==> st != "" && Strip(st) == st
  {
    if |pieces| > 0 {
      StrippedNonBlankAreStripped(pieces[1..]);
      StripIdempotent(pieces[0]);
    }
  }

  lemma {:induction false} StrippedNonBlankComeFromPieces(pieces: seq<string>)
    ensures forall st :: st in StrippedNonBlank(pieces) ==> exists p :: p in pieces && st == Strip(p)
  {
    if |pieces| > 0 {
      StrippedNonBlankComeFromPieces(pieces[1..]);
      assert pieces[0] in pieces;
      forall p | p in pieces[1..] ensures p in pieces {
      }
    }
  }

  lemma {:induction false} StrippedNonBlankAreAll(pieces: seq<string>)
    ensures forall p :: p in pieces && Strip(p) != "" ==> Strip(p) in StrippedNonBlank(pieces)
  {
    if |pieces| > 0 {
      StrippedNonBlankAreAll(pieces[1..]);
      forall p | p in pieces && Strip(p) != "" ensures Strip(p) in StrippedNonBlank(pieces) {
        if p != pieces[0] {
          assert p in pieces[1..];
        }
      }
    }
  }

  lemma {:induction false} StrippedNonBlankLength(pieces: seq<string>)
    ensures |StrippedNonBlank(pieces)| <= |pieces|
  {
    if |pieces| > 0 {
      StrippedNonBlankLength(pieces[1..]);
    }
  }

  lemma {:induction false} StrippedNonBlankOrdered(pieces: seq<string>, stripped: seq<string>)
    requires |stripped| == |pieces| && forall k :: 0 <= k < |pieces| ==> stripped[k] == Strip(pieces[k])
    ensures SubsequenceOf(StrippedNonBlank(pieces), stripped)
  {
    if |pieces| > 0 {
      StrippedNonBlankOrdered(pieces[1..], stripped[1..]);
      var r := StrippedNonBlank(pieces[1..]);
      if Strip(pieces[0]) != "" {
        assert ([Strip(pieces[0])] + r)[1..] == r;
      } else {
        SubsequenceSkip(r, stripped);
      }
    }
  }

  lemma {:induction false} SubsequenceSkip<T>(xs: seq<T>, ys: seq<T>)
    requires |ys| > 0 && SubsequenceOf(xs, ys[1..])
    ensures SubsequenceOf(xs, ys)
    decreases |ys|, 0
  {
    if |xs| > 0 && xs[0] == ys[0] {
      SubsequenceWeaken(xs, ys[1..]);
    }
  }

  lemma {:induction false} SubsequenceWeaken<T>(xs: seq<T>, ys: seq<T>)
    requires |xs| > 0 && SubsequenceOf(xs, ys)
    ensures SubsequenceOf(xs[1..], ys)
    decreases |ys|, 1
  {
    if |ys| > 0 {
      if xs[0] == ys[0] {
        if |xs[1..]| > 0 {
          SubsequenceSkip(xs[1..], ys);
        }
      } else {
        SubsequenceWeaken(xs, ys[1..]);
        SubsequenceSkip(xs[1..], ys);
      }
    }
  }

  lemma SliceOfStripFree(s: string, c: char)
    requires c !in s
    ensures c !in Strip(s)
  {
    StripIsSlice(s);
  }

  lemma SliceOfStripNoDoubleDash(s: string)
    requires NoDoubleDash(s)
    ensures NoDoubleDash(Strip(s))
  {
    StripIsSlice(s);
    var i := |s| - |LStrip(s)|;
    var t := Strip(s);
    forall k | 0 <= k < |t| - 1 ensures !(t[k] == '-' && t[k + 1] == '-') {
      assert t[k] == s[i + k] && t[k + 1] == s[i + k + 1];
    }
  }

  lemma {:induction false} NoDoubleDashPieces(s: string, sep: char)
    requires NoDoubleDash(s)
    ensures forall p :: p in Split(s, sep) ==> NoDoubleDash(p)
  {
    if |s| > 0 {
      NoDoubleDashPieces(s[1..], sep);
      var rest := Split(s[1..], sep);
      assert rest[0] in rest;
      forall p | p in rest[1..] ensures p in rest {
      }
      if s[0] != sep {
        var head := [s[0]] + rest[0];
        forall k | 0 <= k < |head| - 1 ensures !(head[k] == '-' && head[k + 1] == '-') {
          if k > 0 {
            assert head[k] == rest[0][k - 1] && head[k + 1] == rest[0][k];
          } else {
            SplitHeadPrefix(s[1..], sep);
            assert head[1] == s[1];
            assert !(s[0] == '-' && s[1] == '-');
          }
        }
      }
    }
  }

  lemma {:induction false} SplitHeadPrefix(s: string, sep: char)
    ensures var h := Split(s, sep)[0]; |h| <= |s| && h == s[..|h|]
  {
    if |s| > 0 {
      SplitHeadPrefix(s[1..], sep);
    }
  }

  /** The stripped form of every piece, in order. */
  function StripEach(pieces: seq<string>): (r: seq<string>)
    ensures |r| == |pieces| && forall k :: 0 <= k < |r| ==> r[k] == Strip(pieces[k])
  {
    seq(|pieces|, k requires 0 <= k < |pieces| => Strip(pieces[k]))
  }

  /** Every statement is stripped and non-empty. */
  lemma StatementsAreStrippedAndNonEmpty(sql: string)
    ensures forall st :: st in SplitSqlStatements(sql) ==> st != "" && Strip(st) == st
  {
    StrippedNonBlankAreStripped(Pieces(sql));
  }

  /** No statement holds a ";" or a "--". */
  lemma StatementsHaveNoSemicolonOrComment(sql: string)
    ensures forall st :: st in SplitSqlStatements(sql) ==> ';' !in st && !Contains(st, "--")
  {
    var pieces := Pieces(sql);
    StrippedNonBlankComeFromPieces(pieces);
    SplitPiecesHaveNoSeparator(StripComments(sql), ';');
    StripCommentsNoDoubleDash(sql);
    NoDoubleDashPieces(StripComments(sql), ';');
    forall st | st in SplitSqlStatements(sql) ensures ';' !in st && !Contains(st, "--") {
      var p :| p in pieces && st == Strip(p);
      SliceOfStripFree(p, ';');
      SliceOfStripNoDoubleDash(p);
      if Contains(st, "--") {
        DoubleDashFound(st);
      }
    }
  }

  /**
    The statements are the non-blank stripped pieces of the comment-free
    text, every one of them, in source order.
  */
  lemma StatementsKeepSourceOrder(sql: string)
    ensures SubsequenceOf(SplitSqlStatements(sql), StripEach(Pieces(sql)))
    ensures forall p :: p in Pieces(sql) && Strip(p) != "" ==> Strip(p) in SplitSqlStatements(sql)
  {
    StrippedNonBlankAreAll(Pieces(sql));
    StrippedNonBlankOrdered(Pieces(sql), StripEach(Pieces(sql)));
  }

  /** There are at most as many statements as ";" in the script, plus one. */
  lemma StatementCountBound(sql: string)
    ensures |SplitSqlStatements(sql)| <= Count(sql, ';') + 1
  {
    StrippedNonBlankLength(Pieces(sql));
    SplitLength(StripComments(sql), ';');
    CountStripComments(sql, ';');
  }

  /** The database connection of the script, seen as the statements it ran. */
  class SqlClient {
    var executed: seq<string>
    /** Whether the `exec_sql` remote call succeeds for a statement. */
    const accepts: string -> bool

    constructor (accepts: string -> bool)
      ensures this.accepts == accepts && executed == []
    {
      this.accepts := accepts;
      executed := [];
    }
  }

  /** `execute_sql`: a dry run succeeds and leaves the client alone. */
  method ExecuteSql(client: SqlClient, sql: string, dryRun: bool) returns (ok: bool)
    modifies client
    ensures dryRun ==> ok && client.executed == old(client.executed)
    ensures !dryRun ==> ok == client.accepts(sql) && client.executed == old(client.executed) + [sql]
  {
    if dryRun {
      return true;
    }
    client.executed := client.executed + [sql];
    ok := client.accepts(sql);
  }

  /** The statements the loop of `main` hands to `execute_sql`, in order. */
  function NonBlank(statements: seq<string>): seq<string> {
    if |statements| == 0 then []
    else
      var last := statements[|statements| - 1];
      NonBlank(statements[..|statements| - 1]) + (if Strip(last) == "" then [] else [last])
  }

  /** How many of `statements` a run reports as failed. */
  function Failures(statements: seq<string>, dryRun: bool, accepts: string -> bool): nat {
    if dryRun || |statements| == 0 then 0
    else
      var last := statements[|statements| - 1];
      Failures(statements[..|statements| - 1], dryRun, accepts) + (if accepts(last) then 0 else 1)
  }

  function ExitCode(failureCount: nat): (code: nat)
    ensures code == 1 <==> failureCount > 0
    ensures code == 0 <==> failureCount == 0
  {
    if failureCount > 0 then 1 else 0
  }

  /**
    The execution loop of `main`: every non-blank statement is executed once,
    in order; the counts add up to the number of statements executed, and
    the exit code is 1 exactly when one of them failed.
  */
  method RunStatements(client: SqlClient, statements: seq<string>, dryRun: bool)
    returns (successCount: nat, failureCount: nat, exitCode: nat)
    modifies client
    ensures successCount + failureCount == |NonBlank(statements)|
    ensures failureCount == Failures(NonBlank(statements), dryRun, client.accepts)
    ensures exitCode == ExitCode(failureCount)
    ensures client.executed == old(client.executed) + (if dryRun then [] else NonBlank(statements))
  {
    successCount, failureCount := 0, 0;
    ghost var ran: seq<string> := [];
    ghost var before := client.executed;
    ghost var accepts := client.accepts;
    var i := 0;
    while i < |statements|
      invariant 0 <= i <= |statements|
      invariant ran == NonBlank(statements[..i])
      invariant successCount + failureCount == |ran|
      invariant failureCount == Failures(ran, dryRun, accepts)
      invariant client.executed == before + (if dryRun then [] else ran)
    {
      var statement := statements[i];
      NonBlankStep(statements, i);
      if Strip(statement) != "" {
        var ok := ExecuteSql(client, statement, dryRun);
        FailuresStep(ran, statement, dryRun, accepts);
        AppendRegroup(before, ran, statement);
        ran := ran + [statement];
        if ok {
          successCount := successCount + 1;
        } else {
          failureCount := failureCount + 1;
        }
      }
      assert ran == NonBlank(statements[..i + 1]);
      i := i + 1;
    }
    assert statements[..i] == statements;
    exitCode := if failureCount > 0 then 1 else 0;
  }

  lemma AppendRegroup(before: seq<string>, ran: seq<string>, statement: string)
    ensures before + (ran + [statement]) == (before + ran) + [statement]
  {
  }

  lemma NonBlankStep(statements: seq<string>, i: nat)
    requires i < |statements|
    ensures Strip(statements[i]) == "" ==> NonBlank(statements[..i + 1]) == NonBlank(statements[..i])
    ensures Strip(statements[i]) != "" ==> NonBlank(statements[..i + 1]) == NonBlank(statements[..i]) + [statements[i]]
  {
    assert statements[..i + 1][..i] == statements[..i];
  }

  lemma FailuresStep(ran: seq<string>, statement: string, dryRun: bool, accepts: string -> bool)
    ensures Failures(ran + [statement], dryRun, accepts)
         == Failures(ran, dryRun, accepts) + (if dryRun || accepts(statement) then 0 else 1)
  {
    assert (ran + [statement])[..|ran|] == ran;
  }

  /** The statements of `split_sql_statements` are never skipped as blank. */
  lemma {:induction false} SplitStatementsAreNonBlank(statements: seq<string>)
    requires forall st :: st in statements ==> st != "" && Strip(st) == st
    ensures NonBlank(statements) == statements
  {
    if |statements| > 0 {
      var init := statements[..|statements| - 1];
      assert statements[|statements| - 1] in statements;
      forall st | st in init ensures st in statements {
      }
      SplitStatementsAreNonBlank(init);
      assert init + [statements[|statements| - 1]] == statements;
    }
  }

  /** A dry run never fails, so it always exits with 0. */
  lemma {:induction false} DryRunExitsZero(statements: seq<string>, accepts: string -> bool)
    ensures ExitCode(Failures(statements, true, accepts)) == 0
  {
  }

  /** Running the script's own statements: counts add up to the statement count. */
  lemma SetupCountsAddUp(sql: string, successCount: nat, failureCount: nat)
    requires successCount + failureCount == |NonBlank(SplitSqlStatements(sql))|
    ensures successCount + failureCount == |SplitSqlStatements(sql)|
  {
    StatementsAreStrippedAndNonEmpty(sql);
    SplitStatementsAreNonBlank(SplitSqlStatements(sql));
  }
}
