/** The mock "AI improvement suggestions" of `generateImprovements`: a fixed list of
    ten texts, shuffled, of which the first five become new items flagged as added by AI. */
module Improvements {
  import Text
  import opened Todos

  /** The fixed suggestion texts, in the order the app declares them. */
  const ImprovementTexts: seq<string> := [
    "タスクの優先度設定機能を追加",
    "期限日の設定とリマインダー機能",
    "タスクのカテゴリ分け機能",
    "ダークモード対応",
    "タスクの検索・フィルター機能",
    "完了統計とレポート機能",
    "タスクの並び替え（ドラッグ&ドロップ）",
    "サブタスク機能の追加",
    "タスクテンプレート機能",
    "データのクラウド同期機能"
  ]

  /** How many suggestions one call adds (`.slice(0, 5)`). */
  const SelectionSize: nat := 5

  /** `order` lists each index below `n` exactly once. The app shuffles its array with
      `sort(() => 0.5 - Math.random())`; whatever order that sort produces is a
      permutation, and it is taken here as such an index list. */
  predicate IsPermutation(order: seq<nat>, n: nat) {
    && |order| == n
    && (forall i :: 0 <= i < n ==> order[i] < n)
    && (forall i, j :: 0 <= i < j < n ==> order[i] != order[j])
  }

  /** No two suggestion texts are equal. */
  lemma ImprovementTextsDistinct()
    ensures forall i, j :: 0 <= i < j < |ImprovementTexts| ==> ImprovementTexts[i] != ImprovementTexts[j]
  {
  }

  /** Every suggestion text is non-empty and has no white space at either end. */
  lemma ImprovementTextsTrimmed()
    ensures forall i :: 0 <= i < |ImprovementTexts| ==>
      ImprovementTexts[i] != [] && Text.IsTrimmed(ImprovementTexts[i])
  {
  }

  /** The five items `generateImprovements` appends: for a shuffle `order` of the ten
      texts and the five ids drawn for them, the k-th item carries `ids[k]` and the text
      at position k of the shuffled list, is not completed and is flagged as added by AI.
      The five texts are pairwise distinct members of the fixed list. */
  function Suggestions(order: seq<nat>, ids: seq<Id>): (r: seq<Todo>)
    requires IsPermutation(order, |ImprovementTexts|)
    requires |ids| == SelectionSize
    ensures |r| == SelectionSize
    ensures forall k :: 0 <= k < SelectionSize ==>
      r[k].id == ids[k] && r[k].text == ImprovementTexts[order[k]] && !r[k].completed && r[k].addedByAI
    ensures forall k :: 0 <= k < SelectionSize ==> r[k].text in ImprovementTexts
    ensures forall k, l :: 0 <= k < l < SelectionSize ==> r[k].text != r[l].text
  {
    ImprovementTextsDistinct();
    seq(SelectionSize, k requires 0 <= k < SelectionSize => Todo(ids[k], ImprovementTexts[order[k]], false, true))
  }
}
