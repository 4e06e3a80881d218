/** The colour options a drawing tool keeps for its fill and its stroke. */
module Colors {
  import opened Basics

  datatype Color = Color(red: real, green: real, blue: real, alpha: real)

  /** Which colour an option follows: the primary or secondary working colour, or its own custom colour. */
  datatype ToolColorType = Primary | Secondary | Custom

  datatype ToolColorOptions = ToolColorOptions(
    customColor: Option<Color>,
    primaryWorkingColor: Option<Color>,
    secondaryWorkingColor: Option<Color>,
    colorType: ToolColorType)
  {
    /** The colour the option currently stands for, if any. */
    function ActiveColor(): Option<Color> {
      match colorType
      case Primary => primaryWorkingColor
      case Secondary => secondaryWorkingColor
      case Custom => customColor
    }
  }

  /** An option that paints nothing until a colour is chosen. */
  function NewNone(): (r: ToolColorOptions)
    ensures r.ActiveColor() == None
  {
    ToolColorOptions(None, None, None, Custom)
  }

  /** An option that follows the primary working colour. */
  function NewPrimary(): (r: ToolColorOptions)
    ensures r.colorType == Primary
    ensures r.ActiveColor() == r.primaryWorkingColor
  {
    ToolColorOptions(None, None, None, Primary)
  }
}
