/** The team score button (src/widgets/QuizTeam.cpp): a named, coloured button
    showing "<name>: <score>" whose score only grows through addPoints. */
module QuizTeamModel {

  /** size_t is 64 bits wide; `_score += points` wraps modulo this. */
  const SizeModulus: nat := 0x1_0000_0000_0000_0000

  type Size = n: nat | n < SizeModulus

  /** A QColor channel: always in 0..255. */
  type Channel = c: int | 0 <= c <= 255

  datatype Rgb = Rgb(red: Channel, green: Channel, blue: Channel)

  datatype Result<T> = Ok(value: T) | Err(message: string)

  const EmptyNameMessage: string := "Cannot create team without a name."

  /** The text colour set in the style sheet: every channel of the background
      colour subtracted from 255. */
  function Inverted(c: Rgb): (r: Rgb)
    ensures r.red + c.red == 255 && r.green + c.green == 255 && r.blue + c.blue == 255
  {
    Rgb(255 - c.red, 255 - c.green, 255 - c.blue)
  }

  /** Inverting twice gives back the original colour. */
  lemma InvertedTwice(c: Rgb)
    ensures Inverted(Inverted(c)) == c
  {
  }

  /** The only colours equal to their own inverse would need 2 * channel == 255,
      which no integer channel meets: the text never has the background's colour. */
  lemma InvertedDiffers(c: Rgb)
    ensures Inverted(c) != c
  {
    var r := Inverted(c);
    assert r.red + c.red == 255;
  }

  /** `_score += points` on a size_t. */
  function AddWrapping(score: Size, points: Size): (r: Size)
    ensures score + points < SizeModulus ==> r == score + points && r >= score
    ensures r < score <==> score + points >= SizeModulus
  {
    (score + points) % SizeModulus
  }

  /** The button text: the name, ": " and the rendering of the score. */
  function LabelText(name: string, render: Size -> string, score: Size): string {
    name + ": " + render(score)
  }

  class QuizTeam {
    const name: string
    const color: Rgb
    const textColor: Rgb
    /** The conversion `QString(_score)`, kept abstract. */
    const render: Size -> string
    var score: Size
    var text: string

    ghost predicate Valid()
      reads this
    {
      && name != []
      && textColor == Inverted(color)
      && text == LabelText(name, render, score)
    }

    /** The constructor after its name check has passed; CreateTeam runs the check. */
    constructor (name: string, color: Rgb, initialScore: Size, render: Size -> string)
      requires name != []
      ensures Valid()
      ensures this.name == name && this.color == color && this.render == render && score == initialScore
    {
      this.name := name;
      this.color := color;
      this.render := render;
      this.score := initialScore;
      this.text := LabelText(name, render, initialScore);
      this.textColor := Inverted(color);
    }

    method AddPoints(points: Size)
      requires Valid()
      modifies this`score, this`text
      ensures Valid()
      ensures score == AddWrapping(old(score), points)
      ensures old(score) + points < SizeModulus ==> score == old(score) + points
    {
      score := AddWrapping(score, points);
      text := LabelText(name, render, score);
    }

    method GetScore() returns (s: Size)
      ensures s == score
    {
      s := score;
    }
  }

  /** Constructing a team: an empty name throws and no team exists; otherwise a
      valid team with the given name, colour and initial score. */
  method CreateTeam(name: string, color: Rgb, initialScore: Size, render: Size -> string)
    returns (r: Result<QuizTeam>)
    ensures r.Err? <==> name == []
    ensures r.Err? ==> r.message == EmptyNameMessage
    ensures r.Ok? ==> fresh(r.value) && r.value.Valid() && r.value.name == name && r.value.color == color &&
                      r.value.textColor == Inverted(color) && r.value.score == initialScore &&
                      r.value.render == render
  {
    if name == [] {
      return Err(EmptyNameMessage);
    }
    var team := new QuizTeam(name, color, initialScore, render);
    return Ok(team);
  }

  /** Two awards of 100 and 50 points to a team starting from zero leave a
      score of 150, the label showing it and the text colour cyan for a red team. */
  method AwardScenario(render: Size -> string) returns (score: Size, shown: string, textColor: Rgb)
    ensures score == 150 && shown == "Team 1" + ": " + render(150)
    ensures textColor == Rgb(0, 255, 255)
  {
    var r := CreateTeam("Team 1", Rgb(255, 0, 0), 0, render);
    var team := r.value;
    team.AddPoints(100);
    team.AddPoints(50);
    score := team.GetScore();
    shown := team.text;
    textColor := team.textColor;
  }
}
