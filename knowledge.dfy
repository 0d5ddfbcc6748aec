/**
 * The disease knowledge base `DISEASE_INFO`: a static table from a lower-case
 * disease name to descriptive text, kept in its literal (insertion) order,
 * and the dictionary lookup the routes perform on it.
 */
module KnowledgeBase {
  import opened Wrappers
  import Ascii

  /** A record's treatment is a list of steps, except for `healthy`, where it is one sentence. */
  datatype Treatment = Steps(steps: seq<string>) | Note(text: string)

  datatype DiseaseRecord = DiseaseRecord(
    description: string,
    symptoms: seq<string>,
    causes: string,
    prevention: seq<string>,
    treatment: Treatment)

  datatype Entry = Entry(key: string, info: DiseaseRecord)

  /**
   * A dictionary as its items in insertion order. Only a table whose keys are
   * distinct (`DistinctKeys`) stands for a dictionary: with a repeated key,
   * `Lookup` would find the first entry where a dict keeps the last value.
   */
  type Table = seq<Entry>

  predicate DistinctKeys(t: Table) {
    forall i, j :: 0 <= i < j < |t| ==> t[i].key != t[j].key
  }

  /** `t.get(key)`: the record stored under `key`, or nothing when the key is absent. */
  function Lookup(t: Table, key: string): (r: Option<DiseaseRecord>)
    ensures r.None? <==> forall i :: 0 <= i < |t| ==> t[i].key != key
    ensures r.Some? ==> exists i :: 0 <= i < |t| && t[i] == Entry(key, r.value)
    decreases |t|
  {
    if t == [] then None
    else if t[0].key == key then Some(t[0].info)
    else
      var r := Lookup(t[1..], key);
      assert forall i :: 1 <= i < |t| ==> t[i] == t[1..][i - 1];
      r
  }

  /** With distinct keys, looking up an entry's key yields that entry's record. */
  lemma LookupFindsEntry(t: Table, i: nat)
    requires DistinctKeys(t) && i < |t|
    ensures Lookup(t, t[i].key) == Some(t[i].info)
  {
  }

  const DiseaseInfo: Table := [
      Entry("bacterial spot", DiseaseRecord(
        description := "Bacterial spot is a common disease that affects tomato plants, causing dark, water-soaked spots on leaves.",
        symptoms := [
          "Dark brown or black spots on leaves",
          "Spots are usually surrounded by a yellow halo",
          "Spots may coalesce and cause yellowing of entire leaves",
          "Affected leaves eventually drop from the plant"
        ],
        causes := "Caused by various species of Xanthomonas bacteria",
        prevention := [
          "Use disease-resistant varieties",
          "Remove infected plant parts immediately",
          "Avoid overhead watering",
          "Apply copper fungicides as preventative measure"
        ],
        treatment := Steps([
          "Remove affected leaves and destroy them",
          "Apply copper or antibiotic sprays",
          "Improve air circulation around plants",
          "Do not work with wet plants"
        ]))),
      Entry("early blight", DiseaseRecord(
        description := "Early blight is a fungal disease that primarily affects lower leaves and causes target-like spots.",
        symptoms := [
          "Circular lesions with concentric rings (target-like appearance)",
          "Spots appear on lower leaves first",
          "Brown color with yellow halo around lesions",
          "Infected leaves eventually yellow and drop"
        ],
        causes := "Caused by the fungus Alternaria solani",
        prevention := [
          "Space plants properly for good air circulation",
          "Mulch around plants to prevent soil splash",
          "Remove lower leaves as plant grows",
          "Use resistant varieties when available"
        ],
        treatment := Steps([
          "Prune lower branches regularly",
          "Apply fungicides like mancozeb or chlorothalonil",
          "Remove and destroy infected leaves",
          "Maintain dry foliage by watering at soil level"
        ]))),
      Entry("healthy", DiseaseRecord(
        description := "Healthy leaves show no signs of disease or pest damage.",
        symptoms := [
          "Green coloration",
          "No spots or discoloration",
          "No visible damage or yellowing",
          "Normal growth and appearance"
        ],
        causes := "N/A - This is a healthy plant",
        prevention := [
          "Maintain proper watering schedule",
          "Provide adequate nutrients",
          "Ensure proper sunlight exposure",
          "Monitor regularly for early signs of disease"
        ],
        treatment := Note("No treatment needed - continue regular maintenance"))),
      Entry("late blight", DiseaseRecord(
        description := "Late blight is a serious fungal disease caused by Phytophthora infestans that can rapidly destroy tomato plants.",
        symptoms := [
          "Water-soaked lesions on leaves and stems",
          "Lesions turn brown and may have a white moldy appearance on the underside",
          "Rapid spread during wet, cool weather",
          "Can affect the entire plant within days"
        ],
        causes := "Caused by the oomycete pathogen Phytophthora infestans",
        prevention := [
          "Plant resistant varieties",
          "Ensure good air circulation",
          "Avoid overhead watering",
          "Remove infected plant material promptly"
        ],
        treatment := Steps([
          "Apply fungicides containing chlorothalonil or mancozeb",
          "Remove and destroy infected plants",
          "Apply preventive fungicides during wet periods",
          "Space plants wider for better air circulation"
        ]))),
      Entry("leaf mold", DiseaseRecord(
        description := "Leaf mold is a fungal disease that thrives in humid conditions and affects the underside of leaves.",
        symptoms := [
          "Yellow spots on upper leaf surface",
          "Gray or olive-colored mold on undersides of leaves",
          "Mold appears as a fine, powdery coating",
          "Affected leaves may drop prematurely"
        ],
        causes := "Caused by the fungus Passalora fulva (formerly Cladosporium fulvum)",
        prevention := [
          "Maintain low humidity levels",
          "Improve air circulation with fans or spacing",
          "Avoid overhead watering",
          "Remove lower leaves as plants grow"
        ],
        treatment := Steps([
          "Prune infected leaves and remove them from area",
          "Apply sulfur or copper fungicides",
          "Increase ventilation and reduce humidity",
          "Apply fungicides weekly during humid periods"
        ]))),
      Entry("septoria leaf spot", DiseaseRecord(
        description := "Septoria leaf spot is a fungal disease that causes circular spots with dark borders and gray centers.",
        symptoms := [
          "Circular spots with dark brown borders",
          "Gray or tan center with dark ring",
          "Tiny dark bodies (pycnidia) visible in center",
          "Often starts on lower leaves and moves upward"
        ],
        causes := "Caused by the fungus Septoria lycopersici",
        prevention := [
          "Use disease-free seeds and transplants",
          "Space plants for good air circulation",
          "Remove lower leaves from plants",
          "Avoid working with plants when leaves are wet"
        ],
        treatment := Steps([
          "Remove infected leaves immediately",
          "Apply fungicides like copper or chlorothalonil",
          "Keep foliage dry by watering at base",
          "Apply preventive sprays during wet weather"
        ]))),
      Entry("spider mites two-spotted spider mite", DiseaseRecord(
        description := "Spider mites are tiny pests that cause stippling and yellowing of leaves.",
        symptoms := [
          "Tiny light spots on leaves (stippling)",
          "Leaves turn yellow and become papery",
          "Fine webbing may be visible on undersides",
          "Leaves may drop if infestation is severe"
        ],
        causes := "Caused by the two-spotted spider mite (Tetranychus urticae)",
        prevention := [
          "Maintain adequate humidity levels",
          "Spray plants with water to disrupt spider mites",
          "Monitor plant undersides regularly",
          "Avoid excessive nitrogen fertilizer"
        ],
        treatment := Steps([
          "Spray with strong stream of water daily",
          "Apply insecticidal soap or neem oil",
          "Use miticides if infestation is severe",
          "Increase humidity around plants"
        ]))),
      Entry("target spot", DiseaseRecord(
        description := "Target spot is a fungal disease causing concentric circular lesions on leaves.",
        symptoms := [
          "Circular lesions with concentric rings",
          "Dark brown outer ring with lighter center",
          "Yellow halo around the spots",
          "Affects leaves at all heights of the plant"
        ],
        causes := "Caused by the fungus Corynespora cassiicola",
        prevention := [
          "Use resistant varieties",
          "Maintain good air circulation",
          "Remove infected leaves promptly",
          "Avoid overhead watering"
        ],
        treatment := Steps([
          "Apply fungicides like mancozeb or chlorothalonil",
          "Remove infected leaves",
          "Improve ventilation around plants",
          "Apply preventive sprays during humid periods"
        ]))),
      Entry("tomato mosaic virus", DiseaseRecord(
        description := "Tomato mosaic virus causes mottling and distortion of leaves and fruit.",
        symptoms := [
          "Mottled, light and dark green pattern on leaves",
          "Leaf distortion and curling",
          "Yellow spots and stripes on leaves",
          "Stunted growth and reduced fruit production"
        ],
        causes := "Caused by the Tomato Mosaic Virus (ToMV) transmitted by contact or contaminated tools",
        prevention := [
          "Use resistant varieties (marked TMV-resistant)",
          "Sanitize tools before working with plants",
          "Avoid handling plants when leaves are wet",
          "Remove weeds that may carry the virus"
        ],
        treatment := Steps([
          "Remove and destroy infected plants",
          "Sanitize all tools and equipment",
          "Wash hands before working with healthy plants",
          "No chemical treatment available - prevention is key"
        ]))),
      Entry("tomato yellow leaf curl virus", DiseaseRecord(
        description := "Tomato yellow leaf curl virus causes yellowing and curling of young leaves.",
        symptoms := [
          "Young leaves curl upward",
          "Leaves become yellow and brittle",
          "Stunted growth and wilting",
          "Reduced or no fruit production"
        ],
        causes := "Caused by Tomato Yellow Leaf Curl Virus (TYLCV), primarily transmitted by whiteflies",
        prevention := [
          "Use virus-resistant varieties",
          "Control whitefly populations with insecticides",
          "Use row covers on young plants",
          "Remove infected plants immediately"
        ],
        treatment := Steps([
          "Remove and destroy infected plants",
          "Control whitefly populations with appropriate insecticides",
          "Apply reflective mulches to confuse whiteflies",
          "No cure exists - focus on prevention"
        ])))
    ]

  /** The keys of a table, in order. */
  function Keys(t: Table): (r: seq<string>)
    ensures |r| == |t|
    ensures forall i :: 0 <= i < |t| ==> r[i] == t[i].key
  {
    seq(|t|, i requires 0 <= i < |t| => t[i].key)
  }

  lemma DiseaseInfoKeys()
    ensures Keys(DiseaseInfo) == [
      "bacterial spot", "early blight", "healthy", "late blight", "leaf mold",
      "septoria leaf spot", "spider mites two-spotted spider mite", "target spot",
      "tomato mosaic virus", "tomato yellow leaf curl virus"]
  {
  }

  lemma DiseaseInfoDistinct()
    ensures DistinctKeys(DiseaseInfo)
  {
  }

  lemma KeyListLowerCase(ks: seq<string>)
    requires ks == [
      "bacterial spot", "early blight", "healthy", "late blight", "leaf mold",
      "septoria leaf spot", "spider mites two-spotted spider mite", "target spot",
      "tomato mosaic virus", "tomato yellow leaf curl virus"]
    ensures forall i :: 0 <= i < |ks| ==> Ascii.IsLowerCase(ks[i])
  {
  }

  lemma DiseaseInfoLowerCase()
    ensures forall i :: 0 <= i < |DiseaseInfo| ==> Ascii.IsLowerCase(DiseaseInfo[i].key)
  {
    DiseaseInfoKeys();
    KeyListLowerCase(Keys(DiseaseInfo));
  }

  /** Every record of the shipped table has a description and four symptoms. */
  lemma DiseaseInfoDescribed()
    ensures forall i :: 0 <= i < |DiseaseInfo| ==> DiseaseInfo[i].info.description != ""
    ensures forall i :: 0 <= i < |DiseaseInfo| ==> |DiseaseInfo[i].info.symptoms| == 4
  {
  }

  /** `healthy` is the third key of the shipped table and no other key equals it. */
  lemma HealthyIsThird()
    ensures |DiseaseInfo| == 10
    ensures DiseaseInfo[2].key == "healthy"
    ensures forall i :: 0 <= i < |DiseaseInfo| && i != 2 ==> DiseaseInfo[i].key != "healthy"
  {
  }
}
