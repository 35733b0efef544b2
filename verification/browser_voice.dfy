/**
 * The browser speech fallback used when the server cannot synthesise
 * audio: the language code is mapped (Chinese to Mandarin `cmn-CN`), and a
 * voice is picked from the browser's list. For `zh-CN` a Mandarin neural
 * voice is preferred; otherwise the first keyword in a fixed priority list
 * with a voice of the right language wins; otherwise any voice of the
 * right language; otherwise the browser default.
 */
module BrowserVoice {
  import opened Wrappers
  import opened Strings

  datatype Voice = Voice(name: string, lang: string)

  /** The utterance handed to speech synthesis (rate and pitch are not modelled). */
  datatype Utterance = Utterance(text: string, lang: string, voice: Option<Voice>)

  const PriorityKeywords: seq<string> := ["Neural", "Online", "Natural", "Premium", "Google"]

  /** The `langMap` lookup with the code itself as fallback. */
  function MappedLang(code: string): string {
    if code == "zh-CN" || code == "zh" then "cmn-CN" else code
  }

  /** `s.split('-')[0]`: everything before the first dash. */
  function BeforeDash(s: string): (r: string)
    ensures StartsWith(s, r)
    ensures forall i :: 0 <= i < |r| ==> r[i] != '-'
    ensures |r| == |s| || s[|r|] == '-'
  {
    if s == [] || s[0] == '-' then [] else [s[0]] + BeforeDash(s[1..])
  }

  /** The language test: the voice's language mentions the code's prefix (case-blind) or the code itself. */
  predicate LangMatches(v: Voice, code: string) {
    Contains(Lower(v.lang), Lower(BeforeDash(MappedLang(code)))) || Contains(v.lang, code)
  }

  /** The preferred Mandarin voices for `zh-CN`. */
  predicate IsMandarinNeural(v: Voice) {
    && (Contains(v.lang, "cmn") || Contains(v.lang, "zh-CN"))
    && (Contains(v.name, "Xiaoxiao") || Contains(v.name, "Yunyang") || Contains(v.name, "Neural"))
  }

  predicate KeywordCandidate(v: Voice, code: string, keyword: string) {
    LangMatches(v, code) && Contains(v.name, keyword)
  }

  /** `voices.find(p)`, as the index of the first voice satisfying `p`. */
  function FirstIndex(voices: seq<Voice>, p: Voice -> bool): (r: Option<nat>)
    ensures r.Some? ==> r.value < |voices| && p(voices[r.value])
    ensures r.Some? ==> forall j :: 0 <= j < r.value ==> !p(voices[j])
    ensures r.None? ==> forall j :: 0 <= j < |voices| ==> !p(voices[j])
  {
    if voices == [] then None
    else if p(voices[0]) then Some(0)
    else match FirstIndex(voices[1..], p)
      case None => None
      case Some(i) => Some(i + 1)
  }

  /** The keyword loop: the first keyword that has a candidate decides, taking its first candidate. */
  function FirstByKeyword(voices: seq<Voice>, code: string, keywords: seq<string>): (r: Option<nat>)
    ensures r.Some? ==> r.value < |voices| && LangMatches(voices[r.value], code)
    ensures r.None? ==> forall k, j :: 0 <= k < |keywords| && 0 <= j < |voices|
                          ==> !KeywordCandidate(voices[j], code, keywords[k])
  {
    if keywords == [] then None
    else
      var hit := FirstIndex(voices, v => KeywordCandidate(v, code, keywords[0]));
      if hit.Some? then hit else FirstByKeyword(voices, code, keywords[1..])
  }

  /** The index of the chosen voice, following the three stages of the search. */
  function ChosenIndex(code: string, voices: seq<Voice>): Option<nat> {
    var special := if code == "zh-CN" then FirstIndex(voices, IsMandarinNeural) else None;
    if special.Some? then special
    else
      var byKeyword := FirstByKeyword(voices, code, PriorityKeywords);
      if byKeyword.Some? then byKeyword
      else FirstIndex(voices, v => LangMatches(v, code))
  }

  /** A preferred Mandarin voice also passes the general language test for `zh-CN`. */
  lemma MandarinMatchesLang(v: Voice)
    requires IsMandarinNeural(v)
    ensures LangMatches(v, "zh-CN")
  {
    var m := MappedLang("zh-CN");
    assert m == "cmn-CN";
    assert m[3] == '-';
    assert BeforeDash(m) == "cmn";
    assert Lower("cmn") == "cmn";
    if Contains(v.lang, "cmn") {
      LowerKeepsContains(v.lang, "cmn");
    }
  }

  lemma ChosenIndexMatches(code: string, voices: seq<Voice>)
    ensures ChosenIndex(code, voices).Some? ==>
      ChosenIndex(code, voices).value < |voices| && LangMatches(voices[ChosenIndex(code, voices).value], code)
    ensures ChosenIndex(code, voices).None? ==> forall j :: 0 <= j < |voices| ==> !LangMatches(voices[j], code)
  {
    if code == "zh-CN" {
      var special := FirstIndex(voices, IsMandarinNeural);
      if special.Some? {
        MandarinMatchesLang(voices[special.value]);
      }
    }
  }

  /** `fallbackBrowserTTS`: the utterance that is spoken. */
  function FallbackUtterance(text: string, code: string, voices: seq<Voice>): (u: Utterance)
    ensures u.text == text
    ensures code == "zh-CN" || code == "zh" ==> u.lang == "cmn-CN"
    ensures code != "zh-CN" && code != "zh" ==> u.lang == code
    // no voice is set exactly when no voice passes the language test
    ensures u.voice.None? <==> forall j :: 0 <= j < |voices| ==> !LangMatches(voices[j], code)
    ensures u.voice.Some? ==> u.voice.value in voices && LangMatches(u.voice.value, code)
  {
    var i := ChosenIndex(code, voices);
    ChosenIndexMatches(code, voices);
    Utterance(text, MappedLang(code), if i.Some? then Some(voices[i.value]) else None)
  }

  /** `FirstIndex` is pinned down by any first witness. */
  lemma FirstIndexIs(voices: seq<Voice>, p: Voice -> bool, i: nat)
    requires i < |voices| && p(voices[i])
    requires forall j :: 0 <= j < i ==> !p(voices[j])
    ensures FirstIndex(voices, p) == Some(i)
  {
  }

  lemma {:induction false} FirstByKeywordIs(voices: seq<Voice>, code: string, keywords: seq<string>, k: nat, i: nat)
    requires k < |keywords| && i < |voices|
    requires KeywordCandidate(voices[i], code, keywords[k])
    requires forall j :: 0 <= j < i ==> !KeywordCandidate(voices[j], code, keywords[k])
    requires forall k', j :: 0 <= k' < k && 0 <= j < |voices| ==> !KeywordCandidate(voices[j], code, keywords[k'])
    ensures FirstByKeyword(voices, code, keywords) == Some(i)
    decreases k
  {
    var p := v => KeywordCandidate(v, code, keywords[0]);
    if k == 0 {
      FirstIndexIs(voices, p, i);
    } else {
      assert forall j :: 0 <= j < |voices| ==> !p(voices[j]) by {
        forall j | 0 <= j < |voices|
          ensures !p(voices[j])
        {
          assert !KeywordCandidate(voices[j], code, keywords[0]);
        }
      }
      assert FirstIndex(voices, p).None?;
      var rest := keywords[1..];
      assert rest[k - 1] == keywords[k];
      forall k', j | 0 <= k' < k - 1 && 0 <= j < |voices|
        ensures !KeywordCandidate(voices[j], code, rest[k'])
      {
        assert rest[k'] == keywords[k' + 1];
      }
      FirstByKeywordIs(voices, code, rest, k - 1, i);
    }
  }

  /** Keyword priority (codes other than `zh-CN`): the earliest keyword with a language-matching
      voice wins, and among its voices the first in list order. */
  lemma KeywordPriority(text: string, code: string, voices: seq<Voice>, k: nat, i: nat)
    requires code != "zh-CN"
    requires k < |PriorityKeywords| && i < |voices|
    requires KeywordCandidate(voices[i], code, PriorityKeywords[k])
    requires forall j :: 0 <= j < i ==> !KeywordCandidate(voices[j], code, PriorityKeywords[k])
    requires forall k', j :: 0 <= k' < k && 0 <= j < |voices| ==> !KeywordCandidate(voices[j], code, PriorityKeywords[k'])
    ensures FallbackUtterance(text, code, voices).voice == Some(voices[i])
  {
    FirstByKeywordIs(voices, code, PriorityKeywords, k, i);
  }

  /** Without any keyword candidate, the first language-matching voice is used. */
  lemma PlainLanguageMatch(text: string, code: string, voices: seq<Voice>, i: nat)
    requires code != "zh-CN"
    requires forall k, j :: 0 <= k < |PriorityKeywords| && 0 <= j < |voices| ==> !KeywordCandidate(voices[j], code, PriorityKeywords[k])
    requires i < |voices| && LangMatches(voices[i], code)
    requires forall j :: 0 <= j < i ==> !LangMatches(voices[j], code)
    ensures FallbackUtterance(text, code, voices).voice == Some(voices[i])
  {
    var byKeyword := FirstByKeyword(voices, code, PriorityKeywords);
    if byKeyword.Some? {
      var w := byKeyword.value;
      assert LangMatches(voices[w], code);
      // the keyword loop returns the first candidate of some keyword
      FirstByKeywordIsCandidate(voices, code, PriorityKeywords);
      assert false;
    }
    FirstIndexIs(voices, v => LangMatches(v, code), i);
  }

  lemma {:induction false} FirstByKeywordIsCandidate(voices: seq<Voice>, code: string, keywords: seq<string>)
    ensures FirstByKeyword(voices, code, keywords).Some? ==>
      exists k :: 0 <= k < |keywords| && KeywordCandidate(voices[FirstByKeyword(voices, code, keywords).value], code, keywords[k])
  {
    if keywords != [] {
      var hit := FirstIndex(voices, v => KeywordCandidate(v, code, keywords[0]));
      if hit.None? {
        FirstByKeywordIsCandidate(voices, code, keywords[1..]);
        var r := FirstByKeyword(voices, code, keywords[1..]);
        if r.Some? {
          var k :| 0 <= k < |keywords[1..]| && KeywordCandidate(voices[r.value], code, keywords[1..][k]);
          assert keywords[1..][k] == keywords[k + 1];
        }
      } else {
        assert KeywordCandidate(voices[hit.value], code, keywords[0]);
      }
    }
  }

  /** For `zh-CN` with no preferred Mandarin voice, the keyword priority decides as for any other code. */
  lemma MandarinKeywordPriority(text: string, voices: seq<Voice>, k: nat, i: nat)
    requires forall j :: 0 <= j < |voices| ==> !IsMandarinNeural(voices[j])
    requires k < |PriorityKeywords| && i < |voices|
    requires KeywordCandidate(voices[i], "zh-CN", PriorityKeywords[k])
    requires forall j :: 0 <= j < i ==> !KeywordCandidate(voices[j], "zh-CN", PriorityKeywords[k])
    requires forall k', j :: 0 <= k' < k && 0 <= j < |voices| ==> !KeywordCandidate(voices[j], "zh-CN", PriorityKeywords[k'])
    ensures FallbackUtterance(text, "zh-CN", voices).voice == Some(voices[i])
  {
    FirstByKeywordIs(voices, "zh-CN", PriorityKeywords, k, i);
  }

  /** For `zh-CN` the first preferred Mandarin voice wins over every keyword. */
  lemma MandarinFirst(text: string, voices: seq<Voice>, i: nat)
    requires i < |voices| && IsMandarinNeural(voices[i])
    requires forall j :: 0 <= j < i ==> !IsMandarinNeural(voices[j])
    ensures FallbackUtterance(text, "zh-CN", voices).voice == Some(voices[i])
  {
    FirstIndexIs(voices, IsMandarinNeural, i);
  }
}
