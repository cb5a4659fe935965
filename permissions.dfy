/**
 * The four IAM policy records the stacks attach to their Lambda functions, and what each one
 * allows under IAM's resource matching (`*` matches any run of characters, `?` any one).
 */
module Permissions {

  datatype Effect = Allow | Deny

  datatype Statement = Statement(effect: Effect, actions: seq<string>, resources: seq<string>)

  datatype Policy = Policy(name: string, policyStatements: seq<Statement>)

  /** Grants starting executions of the given state machine. */
  function CreateSfnStartExecutionPolicy(stateMachineArn: string): (r: Policy)
    ensures Allows(r, "states:StartExecution", stateMachineArn)
  {
    SelfThen(stateMachineArn, "", "");
    assert stateMachineArn + "" == stateMachineArn;
    var p := Policy("sfn-start-execution-policy",
      [Statement(Allow, ["states:StartExecution"], [stateMachineArn])]);
    GrantsWhatItMatches(p);
    p
  }

  /** Grants sending messages to the given queue. */
  function CreateSqsSendMessagePolicy(queueArn: string): (r: Policy)
    ensures Allows(r, "sqs:sendmessage", queueArn)
  {
    SelfThen(queueArn, "", "");
    assert queueArn + "" == queueArn;
    var p := Policy("sqs-send-message-policy",
      [Statement(Allow, ["sqs:sendmessage"], [queueArn])]);
    GrantsWhatItMatches(p);
    p
  }

  const TextractActions := ["textract:AnalyzeDocument", "textract:StartDocumentAnalysis", "textract:GetDocumentAnalysis"]

  /** The resource pattern of the Textract policy: any region, any account, any document under the bucket. */
  function TextractPattern(bucketName: string): string
  {
    "arn:aws:textract:*:*:document/" + bucketName + "/*"
  }

  /** The ARN of a Textract document under a bucket. */
  function TextractDocument(region: string, account: string, bucketName: string, key: string): string
  {
    "arn:aws:textract:" + region + ":" + account + ":document/" + bucketName + "/" + key
  }

  /** Grants the three Textract document-analysis actions on the bucket's documents, in any region and account. */
  function CreateTextractAnalyzeDocumentPolicy(bucketName: string): (r: Policy)
    ensures forall action, region, account, key :: action in TextractActions ==>
              Allows(r, action, TextractDocument(region, account, bucketName, key))
  {
    TextractPatternMatches(bucketName);
    var p := Policy("textract-analyze-document-task-policy",
      [Statement(Allow, TextractActions, [TextractPattern(bucketName)])]);
    GrantsWhatItMatches(p);
    p
  }

  /** Grants reading every object of the bucket. */
  function CreateS3ReadPolicy(bucketName: string): (r: Policy)
    ensures forall key :: Allows(r, "s3:GetObject", "arn:aws:s3:::" + bucketName + "/" + key)
  {
    PrefixStar("arn:aws:s3:::" + bucketName + "/");
    assert "arn:aws:s3:::" + bucketName + "/*" == ("arn:aws:s3:::" + bucketName + "/") + "*";
    var p := Policy("s3-read-policy",
      [Statement(Allow, ["s3:GetObject"], ["arn:aws:s3:::" + bucketName + "/*"])]);
    GrantsWhatItMatches(p);
    p
  }

  /** IAM's wildcard match of a resource pattern against a resource name. */
  predicate GlobMatch(pattern: string, s: string)
    decreases |pattern| + |s|
  {
    if pattern == [] then s == []
    else if pattern[0] == '*' then GlobMatch(pattern[1..], s) || (s != [] && GlobMatch(pattern, s[1..]))
    else s != [] && (pattern[0] == '?' || pattern[0] == s[0]) && GlobMatch(pattern[1..], s[1..])
  }

  predicate NoWildcards(s: string)
  {
    forall i :: 0 <= i < |s| ==> s[i] != '*' && s[i] != '?'
  }

  /** Some statement of `p` allows `action` on `resource`. */
  ghost predicate Allows(p: Policy, action: string, resource: string)
  {
    exists i, j :: 0 <= i < |p.policyStatements| && 0 <= j < |p.policyStatements[i].resources| &&
      p.policyStatements[i].effect == Allow && action in p.policyStatements[i].actions &&
      GlobMatch(p.policyStatements[i].resources[j], resource)
  }

  /** A policy's first statement, when it allows, grants each of its actions on whatever its first resource matches. */
  lemma GrantsWhatItMatches(p: Policy)
    requires |p.policyStatements| > 0 && p.policyStatements[0].effect == Allow
    requires |p.policyStatements[0].resources| > 0
    ensures forall action, resource ::
              (action in p.policyStatements[0].actions && GlobMatch(p.policyStatements[0].resources[0], resource)) ==>
                Allows(p, action, resource)
  {
    forall action, resource | action in p.policyStatements[0].actions &&
        GlobMatch(p.policyStatements[0].resources[0], resource)
      ensures Allows(p, action, resource)
    {
      assert 0 <= 0 < |p.policyStatements| && 0 <= 0 < |p.policyStatements[0].resources|;
    }
  }

  /** A literal start of a pattern must be matched character for character. */
  lemma {:induction false} LiteralPrefix(lit: string, rest: string, s: string)
    requires NoWildcards(lit)
    ensures GlobMatch(lit + rest, s) <==> |lit| <= |s| && s[..|lit|] == lit && GlobMatch(rest, s[|lit|..])
  {
    if lit == [] {
      assert lit + rest == rest;
      assert s[|lit|..] == s;
    } else {
      assert (lit + rest)[0] == lit[0];
      assert (lit + rest)[1..] == lit[1..] + rest;
      if s != [] {
        LiteralPrefix(lit[1..], rest, s[1..]);
        if |lit| <= |s| {
          assert s[1..][..|lit| - 1] == s[1..|lit|];
          assert s[1..][|lit| - 1..] == s[|lit|..];
          assert s[..|lit|] == [s[0]] + s[1..|lit|];
          assert lit == [lit[0]] + lit[1..];
        }
      }
    }
  }

  /** Text that spells out the start of the pattern, wildcards included, can be followed by whatever the rest matches. */
  lemma {:induction false} SelfThen(p: string, rest: string, y: string)
    requires GlobMatch(rest, y)
    ensures GlobMatch(p + rest, p + y)
  {
    if p == [] {
      assert p + rest == rest && p + y == y;
    } else {
      SelfThen(p[1..], rest, y);
      assert (p + rest)[0] == p[0] && (p + rest)[1..] == p[1..] + rest;
      assert (p + y)[0] == p[0] && (p + y)[1..] == p[1..] + y;
      if p[0] == '*' {
        assert GlobMatch(p + rest, p[1..] + y);
      }
    }
  }

  /** A literal-then-`*` pattern matches the literal followed by anything. */
  lemma PrefixStar(p: string)
    ensures forall y :: GlobMatch(p + "*", p + y)
  {
    forall y
      ensures GlobMatch(p + "*", p + y)
    {
      StarMatchesAll(y);
      SelfThen(p, "*", y);
    }
  }

  /** A pattern without wildcards matches exactly itself. */
  lemma ExactPattern(p: string, s: string)
    requires NoWildcards(p)
    ensures GlobMatch(p, s) <==> s == p
  {
    LiteralPrefix(p, "", s);
    assert p + "" == p;
  }

  /** A trailing `*` matches anything. */
  lemma {:induction false} StarMatchesAll(s: string)
    ensures GlobMatch("*", s)
  {
    if s != [] {
      StarMatchesAll(s[1..]);
    }
  }

  /** A `*` may swallow any text `x` before the rest of the pattern matches. */
  lemma {:induction false} StarSkips(rest: string, x: string, s: string)
    requires GlobMatch(rest, s)
    ensures GlobMatch("*" + rest, x + s)
  {
    assert ("*" + rest)[0] == '*' && ("*" + rest)[1..] == rest;
    if x == [] {
      assert x + s == s;
    } else {
      StarSkips(rest, x[1..], s);
      assert (x + s)[1..] == x[1..] + s;
      assert x + s != [];
    }
  }

  /** Every builder returns one statement, and it allows rather than denies. */
  lemma OneAllowStatement(arn: string, bucketName: string)
    ensures var ps := [CreateSfnStartExecutionPolicy(arn), CreateSqsSendMessagePolicy(arn),
                       CreateTextractAnalyzeDocumentPolicy(bucketName), CreateS3ReadPolicy(bucketName)];
      forall i :: 0 <= i < |ps| ==> |ps[i].policyStatements| == 1 && ps[i].policyStatements[0].effect == Allow
  {
  }

  /** The four policy names are distinct. */
  lemma PolicyNamesDistinct(arn: string, bucketName: string)
    ensures var ns := [CreateSfnStartExecutionPolicy(arn).name, CreateSqsSendMessagePolicy(arn).name,
                       CreateTextractAnalyzeDocumentPolicy(bucketName).name, CreateS3ReadPolicy(bucketName).name];
      forall i, j :: 0 <= i < j < |ns| ==> ns[i] != ns[j]
  {
  }

  /** The SFN policy allows starting an execution of exactly the given state machine. */
  lemma SfnPolicyAllows(stateMachineArn: string, action: string, resource: string)
    requires NoWildcards(stateMachineArn)
    ensures Allows(CreateSfnStartExecutionPolicy(stateMachineArn), action, resource) <==>
              action == "states:StartExecution" && resource == stateMachineArn
  {
    ExactPattern(stateMachineArn, resource);
    if action == "states:StartExecution" && resource == stateMachineArn {
      assert Allows(CreateSfnStartExecutionPolicy(stateMachineArn), action, resource) by {
        var p := CreateSfnStartExecutionPolicy(stateMachineArn);
        assert GlobMatch(p.policyStatements[0].resources[0], resource);
      }
    }
  }

  /** The SQS policy allows sending to exactly the given queue. */
  lemma SqsPolicyAllows(queueArn: string, action: string, resource: string)
    requires NoWildcards(queueArn)
    ensures Allows(CreateSqsSendMessagePolicy(queueArn), action, resource) <==>
              action == "sqs:sendmessage" && resource == queueArn
  {
    ExactPattern(queueArn, resource);
    if action == "sqs:sendmessage" && resource == queueArn {
      assert Allows(CreateSqsSendMessagePolicy(queueArn), action, resource) by {
        var p := CreateSqsSendMessagePolicy(queueArn);
        assert GlobMatch(p.policyStatements[0].resources[0], resource);
      }
    }
  }

  /** The S3 policy allows reading exactly the objects of the given bucket, whatever their key. */
  lemma S3PolicyAllows(bucketName: string, action: string, resource: string)
    requires NoWildcards(bucketName)
    ensures Allows(CreateS3ReadPolicy(bucketName), action, resource) <==>
              action == "s3:GetObject" &&
              exists key :: resource == "arn:aws:s3:::" + bucketName + "/" + key
  {
    var lit := "arn:aws:s3:::" + bucketName + "/";
    assert NoWildcards(lit);
    var pattern := CreateS3ReadPolicy(bucketName).policyStatements[0].resources[0];
    assert pattern == lit + "*";
    LiteralPrefix(lit, "*", resource);
    if |lit| <= |resource| && resource[..|lit|] == lit {
      StarMatchesAll(resource[|lit|..]);
      assert resource == lit + resource[|lit|..];
    }
    if exists key :: resource == lit + key {
      var key :| resource == lit + key;
      assert resource[..|lit|] == lit && resource[|lit|..] == key;
    }
  }

  /** A pattern of three texts each followed by `*` matches the texts with anything after each. */
  lemma ThreeStars(l1: string, l2: string, l3: string, x: string, y: string, z: string)
    ensures GlobMatch(l1 + "*" + l2 + "*" + l3 + "*", l1 + x + l2 + y + l3 + z)
  {
    StarMatchesAll(z);
    SelfThen(l3, "*", z);
    StarSkips(l3 + "*", y, l3 + z);
    SelfThen(l2, "*" + (l3 + "*"), y + (l3 + z));
    StarSkips(l2 + ("*" + (l3 + "*")), x, l2 + (y + (l3 + z)));
    SelfThen(l1, "*" + (l2 + ("*" + (l3 + "*"))), x + (l2 + (y + (l3 + z))));
    assert l1 + "*" + l2 + "*" + l3 + "*" == l1 + ("*" + (l2 + ("*" + (l3 + "*"))));
    assert l1 + x + l2 + y + l3 + z == l1 + (x + (l2 + (y + (l3 + z))));
  }

  /** A `*` followed by `rest` matches exactly when `rest` matches some suffix. */
  lemma {:induction false} StarSplit(rest: string, s: string)
    requires GlobMatch("*" + rest, s)
    ensures exists k :: 0 <= k <= |s| && GlobMatch(rest, s[k..])
  {
    assert ("*" + rest)[0] == '*' && ("*" + rest)[1..] == rest;
    if GlobMatch(rest, s) {
      assert s[0..] == s;
    } else {
      StarSplit(rest, s[1..]);
      var k :| 0 <= k <= |s[1..]| && GlobMatch(rest, s[1..][k..]);
      assert s[1..][k..] == s[k + 1..];
    }
  }

  /** The Textract resource pattern, split at its wildcards. */
  lemma TextractPatternParts(bucketName: string)
    ensures TextractPattern(bucketName) ==
      "arn:aws:textract:" + "*" + ":" + "*" + (":document/" + bucketName + "/") + "*"
  {
    assert "arn:aws:textract:*:*:document/" == "arn:aws:textract:" + "*" + ":" + "*" + ":document/";
  }

  /** The Textract pattern matches every document under the bucket. */
  lemma TextractPatternMatches(bucketName: string)
    ensures forall region, account, key ::
              GlobMatch(TextractPattern(bucketName), TextractDocument(region, account, bucketName, key))
  {
    var l1, l2, l3 := "arn:aws:textract:", ":", ":document/" + bucketName + "/";
    TextractPatternParts(bucketName);
    forall region, account, key
      ensures GlobMatch(TextractPattern(bucketName), TextractDocument(region, account, bucketName, key))
    {
      ThreeStars(l1, l2, l3, region, account, key);
      assert TextractDocument(region, account, bucketName, key) == l1 + region + l2 + account + l3 + key;
    }
  }

  /** Text matching a literal, a `*` and then `rest` is the literal, some text, and text `rest` matches. */
  lemma LiteralStar(l: string, rest: string, s: string)
    requires NoWildcards(l) && GlobMatch(l + ("*" + rest), s)
    ensures exists x, t :: s == l + x + t && GlobMatch(rest, t)
  {
    LiteralPrefix(l, "*" + rest, s);
    var s1 := s[|l|..];
    StarSplit(rest, s1);
    var k :| 0 <= k <= |s1| && GlobMatch(rest, s1[k..]);
    assert s == l + s1[..k] + s1[k..];
  }

  /** Whatever three wildcard-free texts each followed by `*` match is those texts with some text after each. */
  lemma ThreeStarsOnly(l1: string, l2: string, l3: string, s: string)
    requires NoWildcards(l1) && NoWildcards(l2) && NoWildcards(l3)
    requires GlobMatch(l1 + "*" + l2 + "*" + l3 + "*", s)
    ensures exists x, y, z :: s == l1 + x + l2 + y + l3 + z
  {
    assert l1 + "*" + l2 + "*" + l3 + "*" == l1 + ("*" + (l2 + ("*" + (l3 + ("*" + "")))));
    LiteralStar(l1, l2 + ("*" + (l3 + ("*" + ""))), s);
    var x, t1 :| s == l1 + x + t1 && GlobMatch(l2 + ("*" + (l3 + ("*" + ""))), t1);
    LiteralStar(l2, l3 + ("*" + ""), t1);
    var y, t2 :| t1 == l2 + y + t2 && GlobMatch(l3 + ("*" + ""), t2);
    LiteralStar(l3, "", t2);
    var z, t3 :| t2 == l3 + z + t3 && GlobMatch("", t3);
    assert t3 == [];
    assert s == l1 + x + l2 + y + l3 + z;
  }

  /** Whatever the Textract pattern matches is a document under the bucket. */
  lemma TextractPatternOnly(bucketName: string, s: string)
    requires NoWildcards(bucketName) && GlobMatch(TextractPattern(bucketName), s)
    ensures exists region, account, key :: s == TextractDocument(region, account, bucketName, key)
  {
    var l1, l2, l3 := "arn:aws:textract:", ":", ":document/" + bucketName + "/";
    assert NoWildcards(l1) && NoWildcards(l2) && NoWildcards(l3);
    TextractPatternParts(bucketName);
    ThreeStarsOnly(l1, l2, l3, s);
    var region, account, key :| s == l1 + region + l2 + account + l3 + key;
    assert s == TextractDocument(region, account, bucketName, key);
  }

  /** The Textract policy allows exactly its three actions, on exactly the documents under the bucket. */
  lemma TextractPolicyAllows(bucketName: string, action: string, resource: string)
    requires NoWildcards(bucketName)
    ensures Allows(CreateTextractAnalyzeDocumentPolicy(bucketName), action, resource) <==>
              action in TextractActions &&
              exists region, account, key :: resource == TextractDocument(region, account, bucketName, key)
  {
    var p := CreateTextractAnalyzeDocumentPolicy(bucketName);
    if Allows(p, action, resource) {
      assert GlobMatch(TextractPattern(bucketName), resource);
      TextractPatternOnly(bucketName, resource);
    }
  }
}
