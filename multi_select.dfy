/** src/components/configurator/MultiSelect.tsx: the list a click on one option hands to
    `onChange`. */
module MultiSelect {
  import opened Lists

  /** `value.filter((v) => v !== option)`. */
  function Without(value: seq<string>, option: string): (r: seq<string>)
    ensures option !in r
    ensures forall x :: x != option ==> (x in r <==> x in value)
    ensures option !in value ==> r == value
  {
    Filter(value, v => v != option)
  }

  /** `toggleOption`: a selected option is removed everywhere it occurs, an unselected one is
      appended at the end. */
  function ToggleOption(value: seq<string>, option: string): (r: seq<string>)
    ensures option in r <==> option !in value
    ensures forall x :: x != option ==> (x in r <==> x in value)
    ensures option !in value ==> r == value + [option]
    ensures option in value ==> |r| < |value|
  {
    if option in value then Without(value, option) else value + [option]
  }

  /** Apart from the toggled option, the list keeps its elements in their order. */
  lemma ToggleKeepsOthers(value: seq<string>, option: string)
    ensures Without(ToggleOption(value, option), option) == Without(value, option)
  {
    if option !in value {
      FilterAppend(value, [option], v => v != option);
    } else {
      FilterIdempotent(value, v => v != option);
    }
  }

  /** Toggling an unselected option twice gives back the original list. */
  lemma ToggleTwice(value: seq<string>, option: string)
    requires option !in value
    ensures ToggleOption(ToggleOption(value, option), option) == value
  {
    ToggleKeepsOthers(value, option);
  }
}
