/**
 * The static model catalog: the table of hosted models, the fixed category order, the
 * defaults, and the two lookups over the table.
 */
module Models {
  import opened Options
  import opened Schema

  // The catalog is written as one table per provider block, in catalog order; `AI_MODELS`
  // is their concatenation.

  /** OpenAI: the GPT family. */
  const OPENAI_GPT_MODELS: seq<AIModel> := [
    AIModel("gpt-5", "GPT-5", "OpenAI", "OpenAI", None),
    AIModel("gpt-5-mini", "GPT-5 Mini", "OpenAI", "OpenAI", None),
    AIModel("gpt-5-nano", "GPT-5 Nano", "OpenAI", "OpenAI", None),
    AIModel("gpt-5-chat-latest", "GPT-5 Chat Latest", "OpenAI", "OpenAI", None),
    AIModel("gpt-4.1", "GPT-4.1", "OpenAI", "OpenAI", None),
    AIModel("gpt-4.1-mini", "GPT-4.1 Mini", "OpenAI", "OpenAI", None),
    AIModel("gpt-4.1-nano", "GPT-4.1 Nano", "OpenAI", "OpenAI", None),
    AIModel("gpt-4.5-preview", "GPT-4.5 Preview", "OpenAI", "OpenAI", None),
    AIModel("gpt-4o", "GPT-4o", "OpenAI", "OpenAI", Some(true)),
    AIModel("gpt-4o-mini", "GPT-4o Mini", "OpenAI", "OpenAI", Some(true))
  ]

  /** OpenAI: the o-series. */
  const OPENAI_O_MODELS: seq<AIModel> := [
    AIModel("o1", "o1", "OpenAI", "OpenAI", None),
    AIModel("o1-mini", "o1 Mini", "OpenAI", "OpenAI", None),
    AIModel("o1-pro", "o1 Pro", "OpenAI", "OpenAI", None),
    AIModel("o3", "o3", "OpenAI", "OpenAI", None),
    AIModel("o3-mini", "o3 Mini", "OpenAI", "OpenAI", None),
    AIModel("o4-mini", "o4 Mini", "OpenAI", "OpenAI", None)
  ]

  /** Anthropic Claude. */
  const ANTHROPIC_MODELS: seq<AIModel> := [
    AIModel("claude", "Claude", "Anthropic", "Anthropic", None),
    AIModel("claude-sonnet-4", "Claude Sonnet 4", "Anthropic", "Anthropic", None),
    AIModel("claude-3.7-sonnet", "Claude 3.7 Sonnet", "Anthropic", "Anthropic", None)
  ]

  /** Google Gemini. */
  const GOOGLE_MODELS: seq<AIModel> := [
    AIModel("google/gemini-2.5-flash", "Gemini 2.5 Flash", "Google", "Google", None)
  ]

  /** xAI Grok. */
  const XAI_MODELS: seq<AIModel> := [
    AIModel("x-ai/grok-2-1212", "Grok 2 (12/12)", "xAI", "xAI", None),
    AIModel("x-ai/grok-2-vision-1212", "Grok 2 Vision (12/12)", "xAI", "xAI", Some(true)),
    AIModel("x-ai/grok-3", "Grok 3", "xAI", "xAI", None),
    AIModel("x-ai/grok-3-beta", "Grok 3 Beta", "xAI", "xAI", None),
    AIModel("x-ai/grok-3-mini", "Grok 3 Mini", "xAI", "xAI", None),
    AIModel("x-ai/grok-3-mini-beta", "Grok 3 Mini Beta", "xAI", "xAI", None),
    AIModel("x-ai/grok-4", "Grok 4", "xAI", "xAI", None),
    AIModel("x-ai/grok-4-fast:free", "Grok 4 Fast (Free)", "xAI", "xAI", None),
    AIModel("x-ai/grok-code-fast-1", "Grok Code Fast 1", "xAI", "xAI", None),
    AIModel("x-ai/grok-vision-beta", "Grok Vision Beta", "xAI", "xAI", Some(true))
  ]

  /** Meta Llama. */
  const META_MODELS: seq<AIModel> := [
    AIModel("meta-llama/llama-4-maverick", "Llama 4 Maverick", "Meta", "Meta", None),
    AIModel("meta-llama/llama-3.3-70b-instruct", "Llama 3.3 70B Instruct", "Meta", "Meta", None),
    AIModel("meta-llama/llama-3.1-8b-instruct", "Llama 3.1 8B Instruct", "Meta", "Meta", None),
    AIModel("meta-llama/llama-guard-3-8b", "Llama Guard 3 8B", "Meta", "Meta", None)
  ]

  /** DeepSeek. */
  const DEEPSEEK_MODELS: seq<AIModel> := [
    AIModel("deepseek-chat", "DeepSeek Chat (V3.1)", "DeepSeek", "DeepSeek", None),
    AIModel("deepseek-reasoner", "DeepSeek Reasoner (R1)", "DeepSeek", "DeepSeek", None)
  ]

  /** Cohere. */
  const COHERE_MODELS: seq<AIModel> := [
    AIModel("cohere/command", "Command", "Cohere", "Cohere", None),
    AIModel("cohere/command-a", "Command A", "Cohere", "Cohere", None),
    AIModel("cohere/command-r", "Command R", "Cohere", "Cohere", None),
    AIModel("cohere/command-r-03-2024", "Command R (03/2024)", "Cohere", "Cohere", None),
    AIModel("cohere/command-r-08-2024", "Command R (08/2024)", "Cohere", "Cohere", None),
    AIModel("cohere/command-r-plus", "Command R+", "Cohere", "Cohere", None),
    AIModel("cohere/command-r-plus-04-2024", "Command R+ (04/2024)", "Cohere", "Cohere", None),
    AIModel("cohere/command-r-plus-08-2024", "Command R+ (08/2024)", "Cohere", "Cohere", None),
    AIModel("cohere/command-r7b-12-2024", "Command R7B (12/2024)", "Cohere", "Cohere", None)
  ]
  /** `AI_MODELS`: every entry, in the order the sidebar lists them. */
  const AI_MODELS: seq<AIModel> :=
    OPENAI_GPT_MODELS + OPENAI_O_MODELS + ANTHROPIC_MODELS + GOOGLE_MODELS + XAI_MODELS
    + META_MODELS + DEEPSEEK_MODELS + COHERE_MODELS

  /** `MODEL_CATEGORIES`: the category groups, in display order. */
  const MODEL_CATEGORIES: seq<string> := ["OpenAI", "Anthropic", "Google", "xAI", "Meta", "DeepSeek", "Cohere"]

  const DEFAULT_MODEL: string := "gpt-5-nano"

  const DEFAULT_TEMPERATURE: Number := 0.7

  /** `models.filter((model) => model.category === category)`. */
  function FilterCategory(s: seq<AIModel>, category: string): (r: seq<AIModel>)
    ensures |r| <= |s|
    ensures forall m :: m in r <==> m in s && m.category == category
  {
    if |s| == 0 then []
    else if s[0].category == category then [s[0]] + FilterCategory(s[1..], category)
    else FilterCategory(s[1..], category)
  }

  /** Filtering keeps catalog order: it distributes over concatenation. */
  lemma {:induction false} FilterCategoryAppend(a: seq<AIModel>, b: seq<AIModel>, category: string)
    ensures FilterCategory(a + b, category) == FilterCategory(a, category) + FilterCategory(b, category)
  {
    if |a| > 0 {
      assert (a + b)[1..] == a[1..] + b;
      FilterCategoryAppend(a[1..], b, category);
    } else {
      assert a + b == b;
    }
  }

  /** `getModelsByCategory`. */
  function ModelsByCategory(category: string): (r: seq<AIModel>)
    ensures forall m :: m in r <==> m in AI_MODELS && m.category == category
  {
    FilterCategory(AI_MODELS, category)
  }

  /** `models.find((model) => model.id === id)`: the first entry with the id, if any. */
  function FindModel(s: seq<AIModel>, id: string): (r: Option<AIModel>)
    ensures r.Some? ==> r.value in s && r.value.id == id
    ensures r.None? <==> forall i :: 0 <= i < |s| ==> s[i].id != id
    ensures forall k :: 0 <= k < |s| && s[k].id == id && (forall i :: 0 <= i < k ==> s[i].id != id)
                        ==> r == Some(s[k])
  {
    if |s| == 0 then None
    else if s[0].id == id then Some(s[0])
    else
      var r := FindModel(s[1..], id);
      assert forall k :: 1 <= k < |s| ==> s[k] == s[1..][k - 1];
      r
  }

  /** `getModelById`. */
  function ModelById(id: string): (r: Option<AIModel>)
    ensures r.Some? ==> r.value in AI_MODELS && r.value.id == id
    ensures r.None? <==> forall m :: m in AI_MODELS ==> m.id != id
  {
    FindModel(AI_MODELS, id)
  }

  // Distinct ids. Each provider block's ids start with their own two characters, so ids
  // from different blocks differ; within a block they are checked entry by entry.

  /** No entry from index `j` on has the id; unfolds entry by entry on a literal table. */
  predicate IdAbsentFrom(s: seq<AIModel>, id: string, j: nat)
    decreases |s| - j
  {
    j >= |s| || (s[j].id != id && IdAbsentFrom(s, id, j + 1))
  }

  lemma {:induction false} IdAbsentFromSound(s: seq<AIModel>, id: string, j: nat)
    requires IdAbsentFrom(s, id, j)
    ensures forall b :: j <= b < |s| ==> s[b].id != id
    decreases |s| - j
  {
    if j < |s| {
      IdAbsentFromSound(s, id, j + 1);
    }
  }

  /**
   * The entries of a provider block from index `i` on: each has its block's category, an id
   * that starts with one of the block's tags, and an id no later entry repeats. Checked entry by
   * entry, so it unfolds on a literal table.
   */
  predicate BlockFrom(s: seq<AIModel>, tags: set<(char, char)>, category: string, i: nat)
    decreases |s| - i
  {
    i >= |s|
    || (Tag(s[i].id) in tags && s[i].category == category && IdAbsentFrom(s, s[i].id, i + 1)
        && BlockFrom(s, tags, category, i + 1))
  }

  function Tag(id: string): (char, char) {
    if |id| < 2 then (' ', ' ') else (id[0], id[1])
  }

  /** Ids of a table are pairwise distinct. */
  ghost predicate IdsDistinct(s: seq<AIModel>) {
    forall i, j :: 0 <= i < j < |s| ==> s[i].id != s[j].id
  }

  ghost predicate TaggedIn(s: seq<AIModel>, tags: set<(char, char)>) {
    forall i :: 0 <= i < |s| ==> Tag(s[i].id) in tags
  }

  /** Every entry of a table belongs to one category. */
  ghost predicate AllIn(s: seq<AIModel>, category: string) {
    forall i :: 0 <= i < |s| ==> s[i].category == category
  }

  /** The entry-by-entry check gives the three facts about the whole block. */
  lemma {:induction false} BlockFromSound(s: seq<AIModel>, tags: set<(char, char)>, category: string, i: nat)
    requires BlockFrom(s, tags, category, i)
    ensures forall a, b :: i <= a < b < |s| ==> s[a].id != s[b].id
    ensures forall a :: i <= a < |s| ==> Tag(s[a].id) in tags && s[a].category == category
    decreases |s| - i
  {
    if i < |s| {
      IdAbsentFromSound(s, s[i].id, i + 1);
      BlockFromSound(s, tags, category, i + 1);
    }
  }

  /** A provider block: distinct ids, all tagged with `tags`, all in `category`. */
  ghost predicate Block(s: seq<AIModel>, tags: set<(char, char)>, category: string) {
    IdsDistinct(s) && TaggedIn(s, tags) && AllIn(s, category)
  }

  lemma JoinDistinct(a: seq<AIModel>, ta: set<(char, char)>, b: seq<AIModel>, tb: set<(char, char)>)
    requires IdsDistinct(a) && TaggedIn(a, ta)
    requires IdsDistinct(b) && TaggedIn(b, tb)
    requires ta !! tb
    ensures IdsDistinct(a + b) && TaggedIn(a + b, ta + tb)
  {
    forall i, j | 0 <= i < j < |a + b| ensures (a + b)[i].id != (a + b)[j].id {
      if i < |a| <= j {
        assert Tag(a[i].id) in ta;
        assert Tag(b[j - |a|].id) in tb;
      }
    }
  }

  /** The second half of the OpenAI table, checked on its own to keep each proof small. */
  lemma GptBlockTail()
    ensures BlockFrom(OPENAI_GPT_MODELS, {('g', 'p')}, "OpenAI", 5)
  {
    assert IdAbsentFrom(OPENAI_GPT_MODELS, OPENAI_GPT_MODELS[5].id, 6);
    assert IdAbsentFrom(OPENAI_GPT_MODELS, OPENAI_GPT_MODELS[6].id, 7);
    assert IdAbsentFrom(OPENAI_GPT_MODELS, OPENAI_GPT_MODELS[7].id, 8);
    assert IdAbsentFrom(OPENAI_GPT_MODELS, OPENAI_GPT_MODELS[8].id, 9);
    assert IdAbsentFrom(OPENAI_GPT_MODELS, OPENAI_GPT_MODELS[9].id, 10);
    assert BlockFrom(OPENAI_GPT_MODELS, {('g', 'p')}, "OpenAI", 9);
    assert BlockFrom(OPENAI_GPT_MODELS, {('g', 'p')}, "OpenAI", 8);
    assert BlockFrom(OPENAI_GPT_MODELS, {('g', 'p')}, "OpenAI", 7);
    assert BlockFrom(OPENAI_GPT_MODELS, {('g', 'p')}, "OpenAI", 6);
    assert BlockFrom(OPENAI_GPT_MODELS, {('g', 'p')}, "OpenAI", 5);
  }

  lemma GptBlock()
    ensures Block(OPENAI_GPT_MODELS, {('g', 'p')}, "OpenAI")
  {
    GptBlockTail();
    assert IdAbsentFrom(OPENAI_GPT_MODELS, OPENAI_GPT_MODELS[0].id, 1);
    assert IdAbsentFrom(OPENAI_GPT_MODELS, OPENAI_GPT_MODELS[1].id, 2);
    assert IdAbsentFrom(OPENAI_GPT_MODELS, OPENAI_GPT_MODELS[2].id, 3);
    assert IdAbsentFrom(OPENAI_GPT_MODELS, OPENAI_GPT_MODELS[3].id, 4);
    assert IdAbsentFrom(OPENAI_GPT_MODELS, OPENAI_GPT_MODELS[4].id, 5);
    assert BlockFrom(OPENAI_GPT_MODELS, {('g', 'p')}, "OpenAI", 4);
    assert BlockFrom(OPENAI_GPT_MODELS, {('g', 'p')}, "OpenAI", 3);
    assert BlockFrom(OPENAI_GPT_MODELS, {('g', 'p')}, "OpenAI", 2);
    assert BlockFrom(OPENAI_GPT_MODELS, {('g', 'p')}, "OpenAI", 1);
    assert BlockFrom(OPENAI_GPT_MODELS, {('g', 'p')}, "OpenAI", 0);
    BlockFromSound(OPENAI_GPT_MODELS, {('g', 'p')}, "OpenAI", 0);
  }

  lemma OSeriesBlock()
    ensures Block(OPENAI_O_MODELS, {('o', '1'), ('o', '3'), ('o', '4')}, "OpenAI")
  {
    assert BlockFrom(OPENAI_O_MODELS, {('o', '1'), ('o', '3'), ('o', '4')}, "OpenAI", 0);
    BlockFromSound(OPENAI_O_MODELS, {('o', '1'), ('o', '3'), ('o', '4')}, "OpenAI", 0);
  }

  lemma AnthropicBlock()
    ensures Block(ANTHROPIC_MODELS, {('c', 'l')}, "Anthropic")
  {
    assert BlockFrom(ANTHROPIC_MODELS, {('c', 'l')}, "Anthropic", 0);
    BlockFromSound(ANTHROPIC_MODELS, {('c', 'l')}, "Anthropic", 0);
  }

  lemma GoogleBlock()
    ensures Block(GOOGLE_MODELS, {('g', 'o')}, "Google")
  {
    assert BlockFrom(GOOGLE_MODELS, {('g', 'o')}, "Google", 0);
    BlockFromSound(GOOGLE_MODELS, {('g', 'o')}, "Google", 0);
  }

  /** The xAI table is long enough to be checked in two halves; this is the second. */
  lemma XaiBlockTail()
    ensures BlockFrom(XAI_MODELS, {('x', '-')}, "xAI", 5)
  {
    assert IdAbsentFrom(XAI_MODELS, XAI_MODELS[5].id, 6);
    assert IdAbsentFrom(XAI_MODELS, XAI_MODELS[6].id, 7);
    assert IdAbsentFrom(XAI_MODELS, XAI_MODELS[7].id, 8);
    assert IdAbsentFrom(XAI_MODELS, XAI_MODELS[8].id, 9);
    assert IdAbsentFrom(XAI_MODELS, XAI_MODELS[9].id, 10);
    assert BlockFrom(XAI_MODELS, {('x', '-')}, "xAI", 9);
    assert BlockFrom(XAI_MODELS, {('x', '-')}, "xAI", 8);
    assert BlockFrom(XAI_MODELS, {('x', '-')}, "xAI", 7);
    assert BlockFrom(XAI_MODELS, {('x', '-')}, "xAI", 6);
    assert BlockFrom(XAI_MODELS, {('x', '-')}, "xAI", 5);
  }

  lemma XaiBlock()
    ensures Block(XAI_MODELS, {('x', '-')}, "xAI")
  {
    XaiBlockTail();
    assert IdAbsentFrom(XAI_MODELS, XAI_MODELS[0].id, 1);
    assert IdAbsentFrom(XAI_MODELS, XAI_MODELS[1].id, 2);
    assert IdAbsentFrom(XAI_MODELS, XAI_MODELS[2].id, 3);
    assert IdAbsentFrom(XAI_MODELS, XAI_MODELS[3].id, 4);
    assert IdAbsentFrom(XAI_MODELS, XAI_MODELS[4].id, 5);
    assert BlockFrom(XAI_MODELS, {('x', '-')}, "xAI", 4);
    assert BlockFrom(XAI_MODELS, {('x', '-')}, "xAI", 3);
    assert BlockFrom(XAI_MODELS, {('x', '-')}, "xAI", 2);
    assert BlockFrom(XAI_MODELS, {('x', '-')}, "xAI", 1);
    assert BlockFrom(XAI_MODELS, {('x', '-')}, "xAI", 0);
    BlockFromSound(XAI_MODELS, {('x', '-')}, "xAI", 0);
  }

  lemma MetaBlock()
    ensures Block(META_MODELS, {('m', 'e')}, "Meta")
  {
    assert BlockFrom(META_MODELS, {('m', 'e')}, "Meta", 0);
    BlockFromSound(META_MODELS, {('m', 'e')}, "Meta", 0);
  }

  lemma DeepSeekBlock()
    ensures Block(DEEPSEEK_MODELS, {('d', 'e')}, "DeepSeek")
  {
    assert BlockFrom(DEEPSEEK_MODELS, {('d', 'e')}, "DeepSeek", 0);
    BlockFromSound(DEEPSEEK_MODELS, {('d', 'e')}, "DeepSeek", 0);
  }

  /** The second half of the Cohere table, checked on its own to keep each proof small. */
  lemma CohereBlockTail()
    ensures BlockFrom(COHERE_MODELS, {('c', 'o')}, "Cohere", 4)
  {
    assert IdAbsentFrom(COHERE_MODELS, COHERE_MODELS[4].id, 5);
    assert IdAbsentFrom(COHERE_MODELS, COHERE_MODELS[5].id, 6);
    assert IdAbsentFrom(COHERE_MODELS, COHERE_MODELS[6].id, 7);
    assert IdAbsentFrom(COHERE_MODELS, COHERE_MODELS[7].id, 8);
    assert IdAbsentFrom(COHERE_MODELS, COHERE_MODELS[8].id, 9);
    assert BlockFrom(COHERE_MODELS, {('c', 'o')}, "Cohere", 8);
    assert BlockFrom(COHERE_MODELS, {('c', 'o')}, "Cohere", 7);
    assert BlockFrom(COHERE_MODELS, {('c', 'o')}, "Cohere", 6);
    assert BlockFrom(COHERE_MODELS, {('c', 'o')}, "Cohere", 5);
    assert BlockFrom(COHERE_MODELS, {('c', 'o')}, "Cohere", 4);
  }

  lemma CohereBlock()
    ensures Block(COHERE_MODELS, {('c', 'o')}, "Cohere")
  {
    CohereBlockTail();
    assert IdAbsentFrom(COHERE_MODELS, COHERE_MODELS[0].id, 1);
    assert IdAbsentFrom(COHERE_MODELS, COHERE_MODELS[1].id, 2);
    assert IdAbsentFrom(COHERE_MODELS, COHERE_MODELS[2].id, 3);
    assert IdAbsentFrom(COHERE_MODELS, COHERE_MODELS[3].id, 4);
    assert BlockFrom(COHERE_MODELS, {('c', 'o')}, "Cohere", 3);
    assert BlockFrom(COHERE_MODELS, {('c', 'o')}, "Cohere", 2);
    assert BlockFrom(COHERE_MODELS, {('c', 'o')}, "Cohere", 1);
    assert BlockFrom(COHERE_MODELS, {('c', 'o')}, "Cohere", 0);
    BlockFromSound(COHERE_MODELS, {('c', 'o')}, "Cohere", 0);
  }

  /** No two catalog entries share an id. */
  lemma CatalogIdsDistinct()
    ensures IdsDistinct(AI_MODELS)
  {
    GptBlock(); OSeriesBlock(); AnthropicBlock(); GoogleBlock();
    XaiBlock(); MetaBlock(); DeepSeekBlock(); CohereBlock();
    var s := OPENAI_GPT_MODELS;
    var t := {('g', 'p')};
    JoinDistinct(s, t, OPENAI_O_MODELS, {('o', '1'), ('o', '3'), ('o', '4')});
    s, t := s + OPENAI_O_MODELS, t + {('o', '1'), ('o', '3'), ('o', '4')};
    JoinDistinct(s, t, ANTHROPIC_MODELS, {('c', 'l')});
    s, t := s + ANTHROPIC_MODELS, t + {('c', 'l')};
    JoinDistinct(s, t, GOOGLE_MODELS, {('g', 'o')});
    s, t := s + GOOGLE_MODELS, t + {('g', 'o')};
    JoinDistinct(s, t, XAI_MODELS, {('x', '-')});
    s, t := s + XAI_MODELS, t + {('x', '-')};
    JoinDistinct(s, t, META_MODELS, {('m', 'e')});
    s, t := s + META_MODELS, t + {('m', 'e')};
    JoinDistinct(s, t, DEEPSEEK_MODELS, {('d', 'e')});
    s, t := s + DEEPSEEK_MODELS, t + {('d', 'e')};
    JoinDistinct(s, t, COHERE_MODELS, {('c', 'o')});
  }

  /** Looking up any catalog entry's id gives back that very entry. */
  lemma ModelByIdOfEntry(m: AIModel)
    requires m in AI_MODELS
    ensures ModelById(m.id) == Some(m)
  {
    CatalogIdsDistinct();
    var k :| 0 <= k < |AI_MODELS| && AI_MODELS[k] == m;
    assert forall i :: 0 <= i < k ==> AI_MODELS[i].id != m.id;
  }

  /** The default model is a catalog entry and the default temperature is in [0, 2]. */
  lemma DefaultsValid()
    ensures ModelById(DEFAULT_MODEL) == Some(AIModel("gpt-5-nano", "GPT-5 Nano", "OpenAI", "OpenAI", None))
    ensures 0.0 <= DEFAULT_TEMPERATURE <= 2.0
  {
    var nano := AIModel("gpt-5-nano", "GPT-5 Nano", "OpenAI", "OpenAI", None);
    assert OPENAI_GPT_MODELS[2] == nano;
    assert AI_MODELS[2] == nano;
    ModelByIdOfEntry(nano);
  }

  /** Every entry's category is one of `MODEL_CATEGORIES`. */
  lemma CategoriesCoverCatalog()
    ensures forall m :: m in AI_MODELS ==> m.category in MODEL_CATEGORIES
  {
    GptBlock(); OSeriesBlock(); AnthropicBlock(); GoogleBlock();
    XaiBlock(); MetaBlock(); DeepSeekBlock(); CohereBlock();
  }

  /**
   * The per-category lists partition the catalog: each entry is listed under exactly one of
   * the categories, its own.
   */
  lemma CategoriesPartitionCatalog(m: AIModel)
    requires m in AI_MODELS
    ensures m.category in MODEL_CATEGORIES && m in ModelsByCategory(m.category)
    ensures forall c :: c in MODEL_CATEGORIES && m in ModelsByCategory(c) ==> c == m.category
  {
    CategoriesCoverCatalog();
  }

  /** Filtering a table none of whose entries is in the category gives nothing. */
  lemma {:induction false} FilterCategoryNone(s: seq<AIModel>, category: string)
    requires forall i :: 0 <= i < |s| ==> s[i].category != category
    ensures FilterCategory(s, category) == []
  {
    if |s| > 0 {
      FilterCategoryNone(s[1..], category);
    }
  }

  /** Filtering a table all of whose entries are in category `c` keeps it whole or drops it whole. */
  lemma {:induction false} FilterCategoryAll(s: seq<AIModel>, c: string, category: string)
    requires AllIn(s, c)
    ensures FilterCategory(s, category) == if category == c then s else []
  {
    if |s| > 0 {
      assert AllIn(s[1..], c);
      FilterCategoryAll(s[1..], c, category);
      assert [s[0]] + s[1..] == s;
    }
  }

  /** Each provider block lies wholly in its category. */
  lemma BlocksInCategories()
    ensures AllIn(OPENAI_GPT_MODELS, "OpenAI") && AllIn(OPENAI_O_MODELS, "OpenAI")
    ensures AllIn(ANTHROPIC_MODELS, "Anthropic") && AllIn(GOOGLE_MODELS, "Google")
    ensures AllIn(XAI_MODELS, "xAI") && AllIn(META_MODELS, "Meta")
    ensures AllIn(DEEPSEEK_MODELS, "DeepSeek") && AllIn(COHERE_MODELS, "Cohere")
  {
    GptBlock(); OSeriesBlock(); AnthropicBlock(); GoogleBlock();
    XaiBlock(); MetaBlock(); DeepSeekBlock(); CohereBlock();
  }

  /**
   * Filtering eight tables laid end to end, each wholly in the category of the corresponding
   * provider block, keeps or drops each table whole, in order.
   */
  lemma FilterBlocks(gpt: seq<AIModel>, o: seq<AIModel>, anthropic: seq<AIModel>, google: seq<AIModel>,
                     xai: seq<AIModel>, meta: seq<AIModel>, deepseek: seq<AIModel>, cohere: seq<AIModel>,
                     category: string)
    requires AllIn(gpt, "OpenAI") && AllIn(o, "OpenAI") && AllIn(anthropic, "Anthropic")
    requires AllIn(google, "Google") && AllIn(xai, "xAI") && AllIn(meta, "Meta")
    requires AllIn(deepseek, "DeepSeek") && AllIn(cohere, "Cohere")
    ensures FilterCategory(gpt + o + anthropic + google + xai + meta + deepseek + cohere, category)
            == (if category == "OpenAI" then gpt + o else [])
               + (if category == "Anthropic" then anthropic else [])
               + (if category == "Google" then google else [])
               + (if category == "xAI" then xai else [])
               + (if category == "Meta" then meta else [])
               + (if category == "DeepSeek" then deepseek else [])
               + (if category == "Cohere" then cohere else [])
  {
    var s1 := gpt + o;
    var s2 := s1 + anthropic;
    var s3 := s2 + google;
    var s4 := s3 + xai;
    var s5 := s4 + meta;
    var s6 := s5 + deepseek;
    FilterCategoryAppend(gpt, o, category);
    FilterCategoryAppend(s1, anthropic, category);
    FilterCategoryAppend(s2, google, category);
    FilterCategoryAppend(s3, xai, category);
    FilterCategoryAppend(s4, meta, category);
    FilterCategoryAppend(s5, deepseek, category);
    FilterCategoryAppend(s6, cohere, category);
    FilterCategoryAll(gpt, "OpenAI", category);
    FilterCategoryAll(o, "OpenAI", category);
    FilterCategoryAll(anthropic, "Anthropic", category);
    FilterCategoryAll(google, "Google", category);
    FilterCategoryAll(xai, "xAI", category);
    FilterCategoryAll(meta, "Meta", category);
    FilterCategoryAll(deepseek, "DeepSeek", category);
    FilterCategoryAll(cohere, "Cohere", category);
  }

  /**
   * Each category's list is exactly its provider block (both OpenAI blocks for "OpenAI"), in
   * catalog order; any other category lists nothing.
   */
  lemma ModelsByCategoryBlocks(category: string)
    ensures ModelsByCategory(category)
            == (if category == "OpenAI" then OPENAI_GPT_MODELS + OPENAI_O_MODELS else [])
               + (if category == "Anthropic" then ANTHROPIC_MODELS else [])
               + (if category == "Google" then GOOGLE_MODELS else [])
               + (if category == "xAI" then XAI_MODELS else [])
               + (if category == "Meta" then META_MODELS else [])
               + (if category == "DeepSeek" then DEEPSEEK_MODELS else [])
               + (if category == "Cohere" then COHERE_MODELS else [])
  {
    BlocksInCategories();
    FilterBlocks(OPENAI_GPT_MODELS, OPENAI_O_MODELS, ANTHROPIC_MODELS, GOOGLE_MODELS,
                 XAI_MODELS, META_MODELS, DEEPSEEK_MODELS, COHERE_MODELS, category);
  }

  /** A category outside `MODEL_CATEGORIES` has no models. */
  lemma UnknownCategoryEmpty(category: string)
    requires category !in MODEL_CATEGORIES
    ensures ModelsByCategory(category) == []
  {
    CategoriesCoverCatalog();
    FilterCategoryNone(AI_MODELS, category);
  }
}
