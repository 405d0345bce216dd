/** The registry of generation modes: a constant table searched by id. */
module Modes {
  import opened Wrappers
  import opened Builtins
  import opened Types

  const GhibliPrompt := "Create a Studio Ghibli style version while preserving photorealistic facial features. The faces must maintain exact ethnic features, skin tone, face shape, and facial structure from the original photo. Apply Ghibli's background art style, color palette, and lighting, but keep faces true to the original photograph with minimal stylization. Preserve exact facial proportions, eye shapes, and expressions."
  const DisneyPrompt := "Create a Disney/Pixar style version while preserving photorealistic facial features. The faces must maintain exact ethnic features, skin tone, face shape, and facial structure from the original photo. Apply Disney's background art style, color palette, and lighting, but keep faces true to the original photograph with minimal stylization. Preserve exact facial proportions, eye shapes, and expressions."
  const CyberpunkPrompt := "Create a cyberpunk style version while preserving photorealistic facial features. The faces must maintain exact ethnic features, skin tone, face shape, and facial structure from the original photo. Apply cyberpunk effects to the background, lighting, and atmosphere, but keep faces true to the original photograph with minimal stylization. Preserve exact facial proportions, eye shapes, and expressions."
  const OilPaintingPrompt := "Create an oil painting style version while preserving photorealistic facial features. The faces must maintain exact ethnic features, skin tone, face shape, and facial structure from the original photo. Apply oil painting techniques to the background and clothing, but keep faces true to the original photograph with minimal stylization. Preserve exact facial proportions, eye shapes, and expressions."

  /** The table, in display order. */
  const ImageGenerationModes: seq<Mode> := [
    Mode("ghibli", "Ghibli Mode", "Transform your image into a Studio Ghibli masterpiece", GhibliPrompt, "🎨"),
    Mode("disney", "Disney Mode", "Convert your image into a Disney animated style", DisneyPrompt, "✨"),
    Mode("cyberpunk", "Cyberpunk Mode", "Transform your image into a cyberpunk masterpiece", CyberpunkPrompt, "🤖"),
    Mode("oil-painting", "Oil Painting Mode", "Convert your image into a classic oil painting", OilPaintingPrompt, "🖼️")
  ]

  /** The ids of a table, in order. */
  function Ids(modes: seq<Mode>): (r: seq<string>)
    ensures |r| == |modes|
    ensures forall i :: 0 <= i < |modes| ==> r[i] == modes[i].id
  {
    if |modes| == 0 then [] else [modes[0].id] + Ids(modes[1..])
  }

  /** No two entries share an id. */
  predicate DistinctIds(modes: seq<Mode>)
  {
    forall i, j :: 0 <= i < j < |modes| ==> modes[i].id != modes[j].id
  }

  /** `modes.find(m => m.id === id)`. */
  function FindMode(modes: seq<Mode>, id: string): (r: Option<Mode>)
    ensures r.Some? ==> r.value in modes && r.value.id == id
    ensures r.Some? ==> exists i :: 0 <= i < |modes| && modes[i] == r.value && forall j :: 0 <= j < i ==> modes[j].id != id
    ensures r.None? <==> forall i :: 0 <= i < |modes| ==> modes[i].id != id
  {
    Find(modes, (m: Mode) => m.id == id)
  }

  /** The registry holds the four modes, in this order. */
  lemma RegistryIds()
    ensures Ids(ImageGenerationModes) == ["ghibli", "disney", "cyberpunk", "oil-painting"]
  {
  }

  /** The registry's ids are pairwise distinct. */
  lemma RegistryDistinct()
    ensures DistinctIds(ImageGenerationModes)
  {
    var ids := Ids(ImageGenerationModes);
    RegistryIds();
    assert ids[0][0] == 'g' && ids[1][0] == 'd' && ids[2][0] == 'c' && ids[3][0] == 'o';
  }

  /** In a table with distinct ids, looking up an entry's id finds that entry. */
  lemma FindModeUnique(modes: seq<Mode>, i: nat)
    requires DistinctIds(modes)
    requires i < |modes|
    ensures FindMode(modes, modes[i].id) == Some(modes[i])
  {
    var id := modes[i].id;
    var p := (m: Mode) => m.id == id;
    assert p(modes[i]);
    var r := FindMode(modes, id);
    assert r.Some?;
    var k :| 0 <= k < |modes| && modes[k] == r.value && p(modes[k]) && forall j :: 0 <= j < k ==> !p(modes[j]);
    assert k == i;
  }

  /** Looking up any registry id returns the entry with that id. */
  lemma RegistryLookup(i: nat)
    requires i < |ImageGenerationModes|
    ensures FindMode(ImageGenerationModes, ImageGenerationModes[i].id) == Some(ImageGenerationModes[i])
  {
    RegistryDistinct();
    FindModeUnique(ImageGenerationModes, i);
  }

  /** Each id maps to its display name, which becomes a history record's `mode`. */
  lemma RegistryNames()
    ensures FindMode(ImageGenerationModes, "ghibli") == Some(ImageGenerationModes[0]) && ImageGenerationModes[0].name == "Ghibli Mode"
    ensures FindMode(ImageGenerationModes, "disney") == Some(ImageGenerationModes[1]) && ImageGenerationModes[1].name == "Disney Mode"
    ensures FindMode(ImageGenerationModes, "cyberpunk") == Some(ImageGenerationModes[2]) && ImageGenerationModes[2].name == "Cyberpunk Mode"
    ensures FindMode(ImageGenerationModes, "oil-painting") == Some(ImageGenerationModes[3]) && ImageGenerationModes[3].name == "Oil Painting Mode"
  {
    RegistryLookup(0);
    RegistryLookup(1);
    RegistryLookup(2);
    RegistryLookup(3);
  }

  /** An id outside a table is not found in it. */
  lemma UnknownIdNotFound(modes: seq<Mode>, id: string)
    requires id !in Ids(modes)
    ensures FindMode(modes, id) == None
  {
    var ids := Ids(modes);
    assert forall i :: 0 <= i < |modes| ==> modes[i].id == ids[i];
  }

  /** Every prompt template is a non-empty string. */
  lemma TemplatesNonEmpty()
    ensures forall i :: 0 <= i < |ImageGenerationModes| ==> ImageGenerationModes[i].promptTemplate != ""
  {
  }
}
