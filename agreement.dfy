/**
 * How the copies of the same decision in different files line up: campaign
 * labels, templates, and the two edge functions' upsert policies.
 */
module Agreement {
  import opened Text
  import opened Subscribers
  import Popup
  import EmailJs
  import SubmitLead
  import Subscribe

  /** The email popup's label for a variant is the one `submit-lead` gives that variant's name. */
  lemma PopupLabelsMatchServer(v: Popup.Variant)
    ensures Popup.CampaignLabel(v) == SubmitLead.LeadCampaignLabel(Popup.VariantName(v))
  {
  }

  /** The TikTok dialogs' fixed label is the one `submit-lead` gives the code "tiktok_discount". */
  lemma TikTokLabelMatchesServer()
    ensures SubmitLead.LeadCampaignLabel("tiktok_discount") == EmailJs.TikTokCampaign
  {
  }

  /** Each popup variant's name selects that variant's confirmation in `subscribe`. */
  lemma VariantSelectsTemplate(v: Popup.Variant)
    ensures Subscribe.TemplateFor(Popup.VariantName(v))
         == (if v == Popup.Discount then Subscribe.DiscountTemplate else Subscribe.ValentineTemplate)
  {
  }

  /** Whatever stops `submit-lead` after its upsert also stops `subscribe`. */
  lemma LeadPolicyIsMoreTolerant(upsert: Outcome)
    ensures SubmitLead.UpsertAborts(upsert) ==> Subscribe.UpsertAborts(upsert)
  {
  }

  /**
   * The policies part on a returned error that does not mention "duplicate":
   * `submit-lead` logs it and mails the owner, `subscribe` answers 500.
   */
  lemma PoliciesDifferOnOtherErrors(m: string)
    requires !Contains(m, "duplicate")
    ensures Subscribe.UpsertAborts(Failed(m)) && !SubmitLead.UpsertAborts(Failed(m))
  {
  }

  /** A duplicate-key error ends neither request. */
  lemma DuplicateEndsNeither(rest: string)
    ensures !Subscribe.UpsertAborts(Failed("duplicate" + rest)) && !SubmitLead.UpsertAborts(Failed("duplicate" + rest))
  {
    Subscribe.DuplicateKeyTolerated(rest);
  }
}
