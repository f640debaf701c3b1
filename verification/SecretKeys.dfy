/** Which keys of a report are sensitive or prompt-like, said of their characters. */
module SecretKeys {
  import opened Texts
  import opened Sanitizer

  /** `c` is the character `l`, or the capital of it. */
  predicate IsCaseOf(c: char, l: char) {
    if 'A' <= c <= 'Z' then c as int + 32 == l as int else c == l
  }

  predicate SpelledAt(key: string, word: string, i: nat) {
    i + |word| <= |key| && forall k | 0 <= k < |word| :: IsCaseOf(key[i + k], word[k])
  }

  /** The key has the word somewhere, in any case. */
  predicate Has(key: string, word: string) {
    exists i | 0 <= i <= |key| :: SpelledAt(key, word, i)
  }

  /** The key is the word, in any case. */
  predicate Is(key: string, word: string) {
    |key| == |word| && SpelledAt(key, word, 0)
  }

  predicate NamesSecret(key: string) {
    || Has(key, "token") || Has(key, "api_key") || Has(key, "apikey") || Has(key, "secret") || Has(key, "password")
    || Has(key, "authorization") || Has(key, "cookie") || Has(key, "jwt") || Has(key, "database_url")
    || Has(key, "redis_url") || Has(key, "key")
  }

  predicate NamesPrompt(key: string) {
    || Has(key, "prompt") || Has(key, "query") || Has(key, "user_query") || Has(key, "raw_prompt")
    || Has(key, "sql_prompt") || Has(key, "input") || Has(key, "messages")
  }

  /** The names that are no secret and no prompt, whatever they contain. */
  predicate NamesEvidence(key: string) {
    || Is(key, "prompt_tokens") || Is(key, "completion_tokens") || Is(key, "total_tokens")
    || Is(key, "prompt_tokens_total") || Is(key, "completion_tokens_total") || Is(key, "total_tokens_total")
    || Is(key, "api_key_present") || Is(key, "cache_hit") || Is(key, "budget_action") || Is(key, "latency_ms")
    || Is(key, "cost") || Is(key, "request_id") || Is(key, "provider") || Is(key, "model")
    || Is(key, "base_url_summary") || Is(key, "fallback_reason") || Is(key, "error_type") || Is(key, "outcome")
    || Is(key, "audit_event_id") || Is(key, "audit_event_type") || Is(key, "runtime_metric_keys")
    || Is(key, "log_request_id") || Is(key, "trace_id") || Is(key, "report_artifacts") || Is(key, "evidence_notes")
    || Is(key, "score") || Is(key, "passed") || Is(key, "confidence") || Is(key, "judge_provider")
  }

  predicate Secret(key: string) {
    NamesSecret(key) && !NamesEvidence(key)
  }

  predicate Prompt(key: string) {
    NamesPrompt(key) && !NamesEvidence(key)
  }

  // ---------- Letters ----------

  lemma SpelledIs(key: string, word: string, i: nat)
    ensures PartAt(Lower(key), word, i) <==> SpelledAt(key, word, i)
  {
    var low := Lower(key);
    if i + |word| <= |key| {
      forall k | 0 <= k < |word| ensures low[i..i + |word|][k] == word[k] <==> IsCaseOf(key[i + k], word[k]) {
      }
    }
  }

  lemma HasIs(key: string, word: string)
    ensures Contains(Lower(key), word) <==> Has(key, word)
  {
    forall i: nat ensures PartAt(Lower(key), word, i) <==> SpelledAt(key, word, i) {
      SpelledIs(key, word, i);
    }
  }

  lemma IsIs(key: string, word: string)
    ensures Lower(key) == word <==> Is(key, word)
  {
    var low := Lower(key);
    SpelledIs(key, word, 0);
    if |key| == |word| {
      assert low[0..|word|] == low;
    }
  }

  lemma LogSensitiveIs(key: string)
    ensures IsLogSensitive(key) <==> NamesSecret(key)
  {
    var words, low := SENSITIVE_PATTERNS, Lower(key);
    forall k: nat | k < |words| ensures Contains(low, words[k]) <==> Has(key, words[k]) {
      HasIs(key, words[k]);
    }
    assert |words| == 11 && words[0] == "token" && words[1] == "api_key" && words[2] == "apikey" && words[3] == "secret";
    assert words[4] == "password" && words[5] == "authorization" && words[6] == "cookie" && words[7] == "jwt";
    assert words[8] == "database_url" && words[9] == "redis_url" && words[10] == "key";
  }

  lemma PromptPatternsAre(key: string)
    ensures ContainsAny(Lower(key), PROMPT_PATTERNS) <==> NamesPrompt(key)
  {
    var words, low := PROMPT_PATTERNS, Lower(key);
    forall k: nat | k < |words| ensures Contains(low, words[k]) <==> Has(key, words[k]) {
      HasIs(key, words[k]);
    }
    assert |words| == 7 && words[0] == "prompt" && words[1] == "query" && words[2] == "user_query" && words[3] == "raw_prompt";
    assert words[4] == "sql_prompt" && words[5] == "input" && words[6] == "messages";
  }

  // ---------- The safe keys ----------

  lemma EvidenceIsSafe(key: string)
    requires NamesEvidence(key)
    ensures Lower(key) in SAFE_KEYS
  {
    IsIs(key, "prompt_tokens"); IsIs(key, "completion_tokens"); IsIs(key, "total_tokens");
    IsIs(key, "prompt_tokens_total"); IsIs(key, "completion_tokens_total"); IsIs(key, "total_tokens_total");
    IsIs(key, "api_key_present"); IsIs(key, "cache_hit"); IsIs(key, "budget_action"); IsIs(key, "latency_ms");
    IsIs(key, "cost"); IsIs(key, "request_id"); IsIs(key, "provider"); IsIs(key, "model");
    IsIs(key, "base_url_summary"); IsIs(key, "fallback_reason"); IsIs(key, "error_type"); IsIs(key, "outcome");
    IsIs(key, "audit_event_id"); IsIs(key, "audit_event_type"); IsIs(key, "runtime_metric_keys");
    IsIs(key, "log_request_id"); IsIs(key, "trace_id"); IsIs(key, "report_artifacts"); IsIs(key, "evidence_notes");
    IsIs(key, "score"); IsIs(key, "passed"); IsIs(key, "confidence"); IsIs(key, "judge_provider");
  }

  lemma SafeIsEvidence(key: string, k: nat)
    requires k < |SAFE_KEYS| && Is(key, SAFE_KEYS[k])
    ensures NamesEvidence(key)
  {
    var words := SAFE_KEYS;
    if k < 15 {
      assert words[0] == "prompt_tokens" && words[1] == "completion_tokens" && words[2] == "total_tokens" && words[3] == "prompt_tokens_total" && words[4] == "completion_tokens_total";
      assert words[5] == "total_tokens_total" && words[6] == "api_key_present" && words[7] == "cache_hit" && words[8] == "budget_action" && words[9] == "latency_ms";
      assert words[10] == "cost" && words[11] == "request_id" && words[12] == "provider" && words[13] == "model" && words[14] == "base_url_summary";
    } else {
      assert words[15] == "fallback_reason" && words[16] == "error_type" && words[17] == "outcome" && words[18] == "audit_event_id" && words[19] == "audit_event_type";
      assert words[20] == "runtime_metric_keys" && words[21] == "log_request_id" && words[22] == "trace_id" && words[23] == "report_artifacts" && words[24] == "evidence_notes";
      assert words[25] == "score" && words[26] == "passed" && words[27] == "confidence" && words[28] == "judge_provider";
    }
  }

  lemma SafeKeysAre(key: string)
    ensures Lower(key) in SAFE_KEYS <==> NamesEvidence(key)
  {
    if Lower(key) in SAFE_KEYS {
      var k :| 0 <= k < |SAFE_KEYS| && SAFE_KEYS[k] == Lower(key);
      IsIs(key, SAFE_KEYS[k]);
      SafeIsEvidence(key, k);
    } else if NamesEvidence(key) {
      EvidenceIsSafe(key);
    }
  }

  lemma KeysAre(key: string)
    ensures IsPromptLike(key) <==> Prompt(key)
    ensures IsSensitive(key) <==> Secret(key)
    ensures IsLogSensitive(key) <==> NamesSecret(key)
  {
    LogSensitiveIs(key);
    PromptPatternsAre(key);
    SafeKeysAre(key);
  }
}
