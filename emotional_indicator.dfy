/**
  The mood badge (frontend/components/EmotionalIndicator.tsx): the mood the
  backend reports, lowercased, selects one of four icons.
*/
module EmotionalIndicator {
  import Text

  datatype Icon = Sparkles | Smile | Frown | Meh

  /** The `switch (mood.toLowerCase())`. */
  function MoodIcon(mood: string): Icon {
    var m := Text.Lower(mood);
    if m == "excited" || m == "adventurous" || m == "joyful" then Sparkles
    else if m == "relaxed" || m == "calm" then Smile
    else if m == "stressed" || m == "frustrated" then Frown
    else Meh
  }

  /** The mood is matched without regard to case. */
  lemma MoodIconIgnoresCase(mood: string)
    ensures MoodIcon(Text.Upper(mood)) == MoodIcon(mood)
    ensures MoodIcon(Text.Lower(mood)) == MoodIcon(mood)
  {
    Text.LowerForgetsCase(mood);
  }

  /** A text without capital letters is its own lower case. */
  lemma LowerOfLowercase(s: string)
    requires forall i :: 0 <= i < |s| ==> !('A' <= s[i] <= 'Z')
    ensures Text.Lower(s) == s
  {
  }

  /** The three high-energy moods show sparkles, the two quiet ones a smile, the two tense ones a frown. */
  lemma NamedMoods()
    ensures MoodIcon("excited") == MoodIcon("adventurous") == MoodIcon("joyful") == Sparkles
    ensures MoodIcon("relaxed") == MoodIcon("calm") == Smile
    ensures MoodIcon("stressed") == MoodIcon("frustrated") == Frown
  {
    LowerOfLowercase("excited");
    LowerOfLowercase("adventurous");
    LowerOfLowercase("joyful");
    LowerOfLowercase("relaxed");
    LowerOfLowercase("calm");
    LowerOfLowercase("stressed");
    LowerOfLowercase("frustrated");
  }

  /** A mood is shown like the text it lowers to. */
  lemma Relabel(name: string, lower: string)
    requires |name| == |lower| && forall i :: 0 <= i < |name| ==> Text.LowerChar(name[i]) == lower[i]
    ensures MoodIcon(name) == MoodIcon(lower)
  {
    assert Text.Lower(name) == lower;
    Text.LowerForgetsCase(name);
  }

  /** Any mood that lowers to none of the seven named moods shows the neutral face. */
  lemma OtherMoodsMeh(mood: string)
    requires Text.Lower(mood) !in {"excited", "adventurous", "joyful", "relaxed", "calm", "stressed", "frustrated"}
    ensures MoodIcon(mood) == Meh
  {
  }

  /**
    The labels the emotional-tone agent is told to use are capitalised:
    Excited and Frustrated still get their icons.
  */
  lemma BackendIconLabels()
    ensures MoodIcon("Excited") == Sparkles && MoodIcon("Frustrated") == Frown
  {
    NamedMoods();
    Relabel("Excited", "excited");
    Relabel("Frustrated", "frustrated");
  }

  /** Its four other labels all fall to the neutral face. */
  lemma BackendNeutralLabels(name: string)
    requires name in {"Neutral", "Happy", "Anxious", "Inquisitive"}
    ensures MoodIcon(name) == Meh
  {
    var lower := if name == "Neutral" then "neutral"
                 else if name == "Happy" then "happy"
                 else if name == "Anxious" then "anxious"
                 else "inquisitive";
    Relabel(name, lower);
    LowerOfLowercase(lower);
    OtherMoodsMeh(lower);
  }
}
