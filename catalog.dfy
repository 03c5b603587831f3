/** The style catalog: a fixed, ordered list of colorization presets and the
    by-id lookup the style picker uses to find the selected one. */
module Catalog {
  import opened Find

  /** One preset: a stable key, the label and blurb shown to the user, and the
      instruction sent verbatim to the model. */
  datatype RenderQuality = RenderQuality(id: string, name: string, description: string, prompt: string)

  /** The words every instruction opens with. */
  const PromptLead: string := "Colorize this black and white photo"

  /** The presets in display order; entry 0 is the default selection. Each
      instruction is written as the shared lead followed by the rest of its
      text (the vibrant one with its key word as a separate piece, so that
      VibrantMentionsVibrant can point at it); the values are those of the source. */
  const RenderQualities: seq<RenderQuality> := [
    RenderQuality("natural", "Natural", "Realistic and subtle colors.",
      PromptLead + " with natural, realistic colors. Aim for a faithful representation of how the scene would look in real life."),
    RenderQuality("vibrant", "Vibrant", "Rich and saturated colors.",
      PromptLead + " with vibrant" + ", rich, and slightly saturated colors. Make the image pop while maintaining a sense of realism."),
    RenderQuality("enhance", "AI Enhance", "Improve quality and colorize.",
      PromptLead + " with natural, realistic colors. At the same time, enhance the image quality by sharpening details, reducing noise and compression artifacts, and subtly improving the lighting and contrast. Aim for a faithful but higher-quality representation."),
    RenderQuality("cinematic", "Cinematic", "Artistic, movie-like tones.",
      PromptLead + " with a cinematic feel. Apply artistic color grading, perhaps with warm highlights and cool shadows, to give it a dramatic, film-like quality."),
    RenderQuality("surprise", "Surprise Me!", "Let the AI get creative.",
      PromptLead + " with a surprising and artistic style. Be creative! You could choose a vintage look, a dreamy pastel palette, a dramatic cinematic tone, or something entirely unique. The goal is to create a beautiful and unexpected result.")
  ]

  /** The preset selected when a session starts. */
  function DefaultQuality(): (q: RenderQuality)
    ensures q in RenderQualities && q.id == "natural"
  {
    RenderQualities[0]
  }

  /** No two presets share an id. */
  predicate DistinctIds(qs: seq<RenderQuality>) {
    forall i, j :: 0 <= i < j < |qs| ==> qs[i].id != qs[j].id
  }

  /** `qs.findIndex(q => q.id === id)`: where the style picker places its
      indicator for the preset with this id. */
  function IndexOfId(qs: seq<RenderQuality>, id: string): (r: int)
    ensures -1 <= r < |qs|
    ensures r >= 0 ==> qs[r].id == id
    ensures r >= 0 ==> forall j :: 0 <= j < r ==> qs[j].id != id
    ensures r == -1 <==> forall j :: 0 <= j < |qs| ==> qs[j].id != id
  {
    FindIndex(qs, (q: RenderQuality) => q.id == id)
  }

  /** Whether the picker shows the button for `q` as selected. */
  predicate IsSelected(selected: RenderQuality, q: RenderQuality) {
    selected.id == q.id
  }

  /** The catalog has exactly these five ids, in this order. */
  lemma CatalogIds()
    ensures |RenderQualities| == 5
    ensures RenderQualities[0].id == "natural" && RenderQualities[1].id == "vibrant"
    ensures RenderQualities[2].id == "enhance" && RenderQualities[3].id == "cinematic"
    ensures RenderQualities[4].id == "surprise"
  {
  }

  /** The catalog's ids are pairwise distinct. */
  lemma CatalogIdsDistinct()
    ensures DistinctIds(RenderQualities)
  {
  }

  /** With distinct ids, looking up an entry's id yields that entry's own position. */
  lemma IndexOfOwnId(qs: seq<RenderQuality>, k: nat)
    requires DistinctIds(qs) && k < |qs|
    ensures IndexOfId(qs, qs[k].id) == k
  {
  }

  /** For every preset, the indicator sits at that preset's own slot, within [0, 5). */
  lemma CatalogIndicatorPlacement(k: nat)
    requires k < |RenderQualities|
    ensures IndexOfId(RenderQualities, RenderQualities[k].id) == k
    ensures 0 <= IndexOfId(RenderQualities, RenderQualities[k].id) < 5
  {
    CatalogIdsDistinct();
    IndexOfOwnId(RenderQualities, k);
  }

  /** With distinct ids, exactly one button is highlighted: the selected one. */
  lemma SelectedIsUnique(qs: seq<RenderQuality>, k: nat, j: nat)
    requires DistinctIds(qs) && k < |qs| && j < |qs|
    ensures IsSelected(qs[k], qs[j]) <==> j == k
  {
  }

  /** The default selection is entry 0, id "natural", and its indicator sits in slot 0. */
  lemma DefaultIsFirst()
    ensures IndexOfId(RenderQualities, DefaultQuality().id) == 0
    ensures DefaultQuality() == RenderQualities[IndexOfId(RenderQualities, "natural")]
  {
    CatalogIndicatorPlacement(0);
  }

  /** Every preset's instruction opens with the same lead. */
  lemma PromptsShareLead(q: RenderQuality)
    requires q in RenderQualities
    ensures PromptLead <= q.prompt
  {
  }

  /** `w` occurs somewhere in `s`. */
  predicate Mentions(s: string, w: string) {
    exists i :: 0 <= i <= |s| && w <= s[i..]
  }

  /** The "vibrant" preset's instruction asks for vibrant colors. */
  lemma VibrantMentionsVibrant()
    ensures RenderQualities[1].id == "vibrant"
    ensures Mentions(RenderQualities[1].prompt, "vibrant")
  {
    var head := PromptLead + " with vibrant";
    assert head[|head| - 7..] == "vibrant";
    assert RenderQualities[1].prompt[|head| - 7..][..7] == "vibrant";
  }
}
