/** The inline keyboards: `keyboard_from_list` puts one button per item,
    labelled and tagged with the item itself, in rows of `row_size`; the
    language keyboard of `start` is written out by hand. */
module Keyboard {
  import opened Chunking
  import opened Templates

  /** `InlineKeyboardButton(text=..., callback_data=...)`. */
  datatype Button = Button(text: string, callbackData: string)

  type Rows = seq<seq<Button>>

  /** One button per item, each carrying its item as label and data. */
  function ButtonsFor(items: seq<string>): (r: seq<Button>)
    ensures |r| == |items|
    ensures forall i :: 0 <= i < |items| ==> r[i].text == items[i] && r[i].callbackData == items[i]
  {
    seq(|items|, i requires 0 <= i < |items| => Button(items[i], items[i]))
  }

  /** `keyboard_from_list(items, row_size)`: the items in slices of
      `row_size`, each slice a row of buttons. */
  function KeyboardFromList(items: seq<string>, rowSize: nat): Rows
    requires rowSize >= 1
  {
    var slices := Chunk(items, rowSize);
    seq(|slices|, k requires 0 <= k < |slices| => ButtonsFor(slices[k]))
  }

  /** Buttons for a concatenation are the buttons of the parts. */
  lemma ButtonsForAppend(a: seq<string>, b: seq<string>)
    ensures ButtonsFor(a + b) == ButtonsFor(a) + ButtonsFor(b)
  {
  }

  /** Reading the rows in order gives one button per item, in item order. */
  lemma {:induction false} FlattenButtons(slices: seq<seq<string>>)
    ensures Flatten(seq(|slices|, k requires 0 <= k < |slices| => ButtonsFor(slices[k])))
         == ButtonsFor(Flatten(slices))
    decreases |slices|
  {
    var rows := seq(|slices|, k requires 0 <= k < |slices| => ButtonsFor(slices[k]));
    if |slices| > 0 {
      var rest := seq(|slices| - 1, k requires 0 <= k < |slices| - 1 => ButtonsFor(slices[1..][k]));
      assert rows[1..] == rest;
      FlattenButtons(slices[1..]);
      ButtonsForAppend(slices[0], Flatten(slices[1..]));
    }
  }

  /** The rows, read in order, are the items' buttons; every row is
      non-empty and at most `row_size` wide, and only the last may be
      narrower. */
  lemma KeyboardShape(items: seq<string>, rowSize: nat)
    requires rowSize >= 1
    ensures Flatten(KeyboardFromList(items, rowSize)) == ButtonsFor(items)
    ensures |KeyboardFromList(items, rowSize)| == 0 <==> |items| == 0
    ensures forall k :: 0 <= k < |KeyboardFromList(items, rowSize)| ==>
              1 <= |KeyboardFromList(items, rowSize)[k]| <= rowSize
    ensures forall k :: 0 <= k < |KeyboardFromList(items, rowSize)| - 1 ==>
              |KeyboardFromList(items, rowSize)[k]| == rowSize
  {
    ChunkShape(items, rowSize);
    FlattenButtons(Chunk(items, rowSize));
  }

  /** The platform keyboard of `lang_choice`. */
  function PlatformKeyboard(): Rows {
    KeyboardFromList(Platforms, 2)
  }

  /** The seven platforms make four rows, the last holding "Llama 3" alone,
      and every button's data names a platform with its own template. */
  lemma PlatformKeyboardShape()
    ensures |PlatformKeyboard()| == 4
    ensures PlatformKeyboard()[3] == [Button("Llama 3", "Llama 3")]
    ensures forall k, j :: 0 <= k < |PlatformKeyboard()| && 0 <= j < |PlatformKeyboard()[k]| ==>
              PlatformKeyboard()[k][j].callbackData in Table
  {
    var rows: Rows := PlatformKeyboard();
    KeyboardShape(Platforms, 2);
    ChunkCount(Platforms, 2);
    ChunkAt(Platforms, 2, 3);
    PlatformsHaveTemplates();
    forall k, j | 0 <= k < |rows| && 0 <= j < |rows[k]|
      ensures rows[k][j].callbackData in Table
    {
      ChunkAt(Platforms, 2, k);
      assert rows[k][j].callbackData == Platforms[2 * k + j];
    }
  }

  /** The keyboard `start` sends. */
  const LanguageKeyboard: Rows := [[Button("Русский", "lang_ru"), Button("English", "lang_en")]]
}
