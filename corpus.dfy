/**
 * The sample knowledge base: ten fixed documents, each tagged with one of four
 * document types.  The retrieval route embeds and ranks exactly these.
 */
module Corpus {

  /** The closed set of document types. */
  datatype DocType = Pdf | Markdown | Faq | Policy

  datatype Document = Document(id: string, title: string, docType: DocType, source: string, content: string)

  /** The corpus, in the order the route embeds it and breaks score ties. */
  const SampleDocuments: seq<Document> := [
    Document(
      "onboarding-guide",
      "導入オンボーディング手順書（抜粋）",
      Pdf,
      "docs/onboarding-guide.pdf",
      "CloudWork Manager を新規導入する際の社内標準手順。初期設定では SSO と監査ログを有効化し、アカウント種別ごとに最小権限ロールを割り当てる。ワークフロー承認経路は申請・承認・最終承認の3段階を基本とし、Slack 通知をオプションで有効化できる。"),
    Document(
      "billing-policy",
      "課金・請求ポリシー v1.4",
      Policy,
      "handbook/billing-policy.md",
      "料金は月次従量制。基本料金は1テナントあたり固定、追加はアクティブユーザー数に基づく。締め日は毎月末、請求書は翌月5営業日以内にメール送付。支払い遅延が3営業日を超えると自動で閲覧専用モードへ移行する。エンタープライズ契約では前倒し請求と分割払いのオプションがある。"),
    Document(
      "backup-drill",
      "バックアップ & DR 計画（サマリ）",
      Markdown,
      "runbook/backup-and-dr.md",
      "本番データベースは15分間隔で PITR を有効化し、S3 へ日次スナップショットを保管する。障害発生時は RPO 15分以内、RTO 60分以内を目標とし、代替リージョンへのフェイルオーバー手順を runbook に記載。アプリ層は IaC で再構築し、障害報告はステータスページへ即時掲載する。"),
    Document(
      "security-baseline",
      "セキュリティ基準（社内公開版）",
      Policy,
      "security/security-baseline.md",
      "管理者アカウントは MFA 必須。監査ログを90日保持し、API キーは最低限の権限スコープで発行する。顧客データの持ち出しは禁止で、検証環境には匿名化データのみを使用する。個人情報を含むエクスポートは承認フローを通過した申請のみ許可する。"),
    Document(
      "slack-runbook",
      "障害時のSlack連絡テンプレート",
      Markdown,
      "runbook/incident-comm-template.md",
      "障害検知時は #incidents に以下を投稿: (1) 発生時刻 (2) 影響範囲 (3) 初期トリアージ結果 (4) 回避策の有無。15分ごとにアップデートを追記し、主要顧客にはCS経由でメール連絡する。"),
    Document(
      "slo-metrics",
      "SLO & エラーバジェット方針",
      Policy,
      "handbook/slo-policy.md",
      "APIレイテンシP95 800ms以下、成功率99.9%をSLOとする。30日間のエラーバジェットを消費した場合、新規リリースを凍結し、バグ修正と信頼性改善を最優先にする。SLO違反時はPostmortemを48時間以内に公開。"),
    Document(
      "pii-handling",
      "個人情報取扱いガイド",
      Policy,
      "security/pii-handling.md",
      "個人情報は暗号化されたストレージで保管し、アクセスは監査ログに記録する。サポート対応時のログ共有は匿名化済みの形で行う。検証環境ではダミーデータのみ使用し、スクリーンショット共有時も氏名やメールをマスクする。"),
    Document(
      "api-usage",
      "API 利用ベストプラクティス",
      Faq,
      "docs/api-best-practices.md",
      "APIキーは役割ごとに分割し、最小権限で発行する。Webhookの再試行は指数バックオフで最大5回。大規模エクスポートはジョブAPIを使い、完了通知をWebhookで受け取る。レートリミット超過時はRetry-Afterヘッダーを確認する。"),
    Document(
      "data-retention",
      "データ保持と削除ポリシー",
      Policy,
      "handbook/data-retention.md",
      "システムログは90日、監査ログは180日保持。ユーザー削除は30日間の猶予期間後に完全削除される。エクスポートデータは7日以内に失効する一時URLで提供し、バックアップからの個別復元はオンコール承認が必要。"),
    Document(
      "sso-setup",
      "SSO設定チェックリスト",
      Pdf,
      "docs/sso-setup.pdf",
      "IdPにはSAML 2.0で接続し、NameIDはemailを使用。初回ログイン時にロールマッピングを実行し、管理者にはMFAを強制する。SCIMを有効化して自動プロビジョニングを行い、定期的にデプロビジョニングジョブの結果を確認する。")
  ]

  /** The type of every document, in order. */
  function Types(docs: seq<Document>): seq<DocType>
  {
    seq(|docs|, i requires 0 <= i < |docs| => docs[i].docType)
  }

  /** How many entries of `types` are `t`. */
  function Tally(types: seq<DocType>, t: DocType): nat
  {
    if types == [] then 0
    else (if types[0] == t then 1 else 0) + Tally(types[1..], t)
  }

  /** A tally is at most the number of entries, and 0 exactly when no entry is `t`. */
  lemma {:induction false} TallyBounds(types: seq<DocType>, t: DocType)
    ensures Tally(types, t) <= |types|
    ensures Tally(types, t) == 0 <==> forall i :: 0 <= i < |types| ==> types[i] != t
  {
    if types != [] {
      TallyBounds(types[1..], t);
      assert forall i :: 1 <= i < |types| ==> types[i] == types[1..][i - 1];
    }
  }

  /** How many documents of `docs` have type `t` (the per-type tally the playground page shows). */
  function CountType(docs: seq<Document>, t: DocType): (n: nat)
    ensures n <= |docs|
    ensures n == 0 <==> forall i :: 0 <= i < |docs| ==> docs[i].docType != t
  {
    var types := Types(docs);
    assert forall i :: 0 <= i < |docs| ==> types[i] == docs[i].docType;
    TallyBounds(types, t);
    Tally(types, t)
  }

  /** The four tallies partition a sequence of types: every entry is exactly one of the four. */
  lemma {:induction false} TallyCoversAll(types: seq<DocType>)
    ensures Tally(types, Pdf) + Tally(types, Markdown) + Tally(types, Faq) + Tally(types, Policy) == |types|
  {
    if types != [] {
      TallyCoversAll(types[1..]);
    }
  }

  /** The corpus holds ten documents, so the route clamps `topK` to at most 10. */
  lemma SampleSize()
    ensures |SampleDocuments| == 10
  {
  }

  /** Document ids are pairwise distinct. */
  lemma SampleIdsDistinct()
    ensures forall i, j :: 0 <= i < j < |SampleDocuments| ==> SampleDocuments[i].id != SampleDocuments[j].id
  {
  }

  /** The document types in corpus order. */
  lemma SampleTypes()
    ensures Types(SampleDocuments) == [Pdf, Policy, Markdown, Policy, Markdown, Policy, Policy, Faq, Policy, Pdf]
  {
  }

  /** The tally by type: two PDFs, two Markdown files, one FAQ and five policies, ten in all. */
  lemma SampleTally()
    ensures CountType(SampleDocuments, Pdf) == 2
    ensures CountType(SampleDocuments, Markdown) == 2
    ensures CountType(SampleDocuments, Faq) == 1
    ensures CountType(SampleDocuments, Policy) == 5
  {
    SampleTypes();
    TypesTally(Pdf);
    TypesTally(Markdown);
    TypesTally(Faq);
    TypesTally(Policy);
  }

  /** The tally of the corpus type list, one type at a time. */
  lemma TypesTally(t: DocType)
    ensures Tally([Pdf, Policy, Markdown, Policy, Markdown, Policy, Policy, Faq, Policy, Pdf], t)
         == match t case Pdf => 2 case Markdown => 2 case Faq => 1 case Policy => 5
  {
  }
}
