# 3DPass print-ordering core in Dafny

3DPass is a 3D-printing storefront. A customer uploads a mesh (STL/OBJ), picks a material, a print quality, a colour, a uniform scale and a quantity, and receives an instant price estimate. Checking out stores a print and a draft order, sends the customer to a Stripe checkout session, and lets a Stripe webhook mark the order paid or canceled. An admin dashboard lists, searches and re-labels the orders.

This project models that core and proves properties of it:

- `geometry.dfy` models the mesh measurements: the signed-tetrahedron volume (divergence theorem) and the axis-aligned bounding size.
- `materials.dfy` models the material table, the quality multipliers and fill factors, the pricing constants and the colour catalogue.
- `pricing.dfy` models `estimatePrice`: grams from volume, a price by weight floored at the minimum, totals charging the base fee once, and `toFixed` rounding.
- `upload.dfy` models the upload page. This covers the largest scale that fits the 256 mm build cube, the clamp of the requested scale, the quantity and scale inputs with their handlers, and the estimate shown. The page state is a class.
- `records.dfy` models the `prints` and `orders` tables: creation, the unconditional status patches, the session-id patch, the partial details patch, and the listing (filter, newest first, paired with prints). The tables are a class.
- `checkout.dfy` models the checkout action: its line items, the Stripe customer and session requests, and the session id written back. As written the action looks the print up through a query that does not exist and always throws; `CreateCheckoutSessionAsWritten` models that, and `CreateCheckoutSession` the action with the print read from its table.
- `webhooks.dfy` models the Stripe webhook: configuration and signature checks, the dispatch on the event type, and the mapping of a completed session onto the order. As written the details call of a completed session is always rejected; `StripeWebhook` models that, and `StripeWebhookCorrected` the handler without the offending argument.
- `admin.dfy` models the dashboard: the search, the displayed total, the status buttons and the set of downloads in progress.
- `text.dfy` and `wrappers.dfy` hold the JavaScript string operations and the `Option`/`Result` types the rest uses.

Numbers are Dafny `real`s, so all arithmetic is exact. `Math.round` is `floor(x + 0.5)`. `toFixed(d)` rounds half away from zero, and every value it is applied to is non-negative. Stripe, signature verification, the clock and file loading are parameters of the operations that use them.

Two behaviours of the code worth knowing:

- `markOrderPaid` and `markOrderCanceled` overwrite any status. An expired event after a completed one therefore cancels a paid order.
- A scale at or below zero prices a zero volume, so such a print is billed at the minimum price.

## Model

| member | source | states |
|---|---|---|
| Geometry.MeshVolume | src/lib/geometry.ts:4-29 | The volume is non-negative and is the absolute value of the sum of signed tetrahedron volumes. |
| Geometry.GeometryVolume | src/lib/geometry.ts:9-29 | A geometry's volume is non-negative. It is 0 without a position attribute and 0 for an empty position list. |
| Geometry.ComputeGeometryVolumeMM3 | src/lib/geometry.ts:9-29 | The triangle loop returns exactly the volume of the de-indexed triangle soup. |
| Geometry.IndexedVolumeMatchesExpanded | src/lib/geometry.ts:11-12 | Summing an indexed mesh through its index gives the same volume as its non-indexed copy. |
| Geometry.IndexedPrefixSum | src/lib/geometry.ts:11-26 | Every prefix of the indexed triangle sum equals the signed sum of that prefix of de-indexed triangles. |
| Geometry.FlipNegatesSignedSum | src/lib/geometry.ts:4-6 | Reversing every triangle's winding negates the signed sum. |
| Geometry.FlipTriangle | src/lib/geometry.ts:4-6 | Swapping two vertices of one triangle negates its signed volume. |
| Geometry.WindingInvariance | src/lib/geometry.ts:28 | Because of the final absolute value, the volume does not depend on a consistent winding direction. |
| Geometry.TriangleScales | src/lib/geometry.ts:4-6 | Scaling a triangle's vertices by s multiplies its signed tetrahedron volume by s³. |
| Geometry.ScaledSignedSum | src/lib/geometry.ts:16-26 | Scaling a whole mesh by s multiplies its signed sum by s³. |
| Geometry.VolumeScalesCubically | src/lib/geometry.ts:9-29 | The volume of a mesh scaled by s is \|s\|³ times its volume. |
| Geometry.MaxCoord | src/lib/geometry.ts:32-39 | The bounding-box maximum bounds every coordinate and is attained by some vertex. |
| Geometry.MinCoord | src/lib/geometry.ts:32-39 | The bounding-box minimum is below every coordinate and is attained by some vertex. |
| Geometry.ComputeGeometrySizeMM | src/lib/geometry.ts:32-39 | The size is non-negative on every axis. |
| Geometry.SizeIsTightBox | src/lib/geometry.ts:32-39 | The size on an axis is the difference between the largest and smallest vertex coordinate. |
| Geometry.SizeIsTranslationInvariant | src/lib/geometry.ts:32-39 | Moving the model does not change its size. |
| Geometry.SizeScalesLinearly | src/lib/geometry.ts:32-39 | Scaling the vertices by s ≥ 0 scales the size on each axis by s. |
| Materials.MaterialOf | src/lib/materials.ts:11-23 | Each material entry carries its own id and a positive density and price per gram. |
| Materials.QualityMultiplier | src/lib/materials.ts:25-29 | Every quality multiplier is positive. |
| Materials.QualityFillFactor | src/lib/materials.ts:32-36 | Every fill factor lies strictly between 0 and 1. |
| Materials.FinerQualityCostsMore | src/lib/materials.ts:25-36 | A finer quality has a strictly larger multiplier and fill factor, and conversely. |
| Materials.MaterialColors | src/lib/materials.ts:46-85 | Every material offers at least one colour. |
| Materials.ColorIdsAreUnique | src/lib/materials.ts:46-85 | Colour ids within a material's list are distinct. |
| Materials.DefaultColorId | src/app/upload/page.tsx:158 | The colour chosen on a material change is one the material offers. |
| Materials.SelectedColor | src/app/upload/page.tsx:44-49 | The selected colour is the one with the chosen id, or the material's first colour when no colour has that id. |
| Materials.FindColor | src/app/upload/page.tsx:44-49 | The lookup finds a colour exactly when one with that id is listed, and returns that colour. |
| Materials.DefaultColorIsSelectable | src/app/upload/page.tsx:158 | After a material change the selected colour is the material's first colour. |
| Pricing.Round2Bounds | src/lib/pricing.ts:33 | Rounding to cents moves a value by at most half a cent and yields whole cents. |
| Pricing.Round1Bounds | src/lib/pricing.ts:41 | Rounding grams to one decimal moves them by at most 0.05 and keeps them non-negative. |
| Pricing.Round2OfWholeCents | src/lib/pricing.ts:33-37 | Rounding a whole-cent amount to cents leaves it unchanged. |
| Pricing.Round2Monotone | src/lib/pricing.ts:33-37 | Rounding to cents is monotone. |
| Pricing.WholeCentsTimesNat | src/lib/pricing.ts:35-37 | A whole-cent price times a whole quantity is whole cents. |
| Pricing.UnitPrice | src/lib/pricing.ts:29-33 | The per-item price is at least the 5.00 minimum and is whole cents. |
| Pricing.OrderTotal | src/lib/pricing.ts:35-37 | The order total is whole cents. |
| Pricing.EstimateFromVolume | src/lib/pricing.ts:12-45 | The estimate's unit price is at least the minimum and whole cents, its total is whole cents, and its grams are non-negative. |
| Pricing.NoMaterialCostsMinimum | src/lib/pricing.ts:12-45 | A part with no volume weighs nothing and is charged the minimum unit price. |
| Pricing.EstimatePrice | src/lib/pricing.ts:12-45 | For any readable geometry the reported volume is non-negative and the unit price is at least the minimum. |
| Pricing.TotalChargesBaseFeeOnce | src/lib/pricing.ts:30-37 | For a whole quantity q ≥ 1 the total is exactly the 3.00 base fee plus q times the unit price. |
| Pricing.OrderTotalOfWholeQuantity | src/lib/pricing.ts:35-37 | For a whole-cent unit price and a whole quantity q ≥ 1, rounding adds nothing: the total is base fee + price × q. |
| Pricing.QuantityBelowOneChargedAsOne | src/lib/pricing.ts:35-36 | A quantity below one is charged as one item. |
| Pricing.NonPositiveScaleBillsMinimum | src/lib/pricing.ts:20-33 | A scale at or below zero gives zero volume and grams and the 5.00 minimum unit price. |
| Pricing.ReportedGramsNearPricedGrams | src/lib/pricing.ts:28-41 | The grams shown differ by at most 0.05 g from the grams that were priced. |
| Pricing.PriceUsesUnroundedGrams | src/lib/pricing.ts:28-41 | The price comes from the unrounded grams: 50.04 g of PA6-CF at fine quality costs 7.21, while the shown 50.0 g would cost 7.20. |
| Pricing.WorkedExample | src/lib/pricing.ts:12-45 | 10 000 mm³ of PLA at standard quality weighs 5.5 g and costs 5.00 each and 8.00 in total. Three of them total 18.00. |
| Pricing.PriceMonotoneInVolume | src/lib/pricing.ts:19-37 | A larger model never gets a lower unit price or total. |
| Pricing.GramsRawMonotone | src/lib/pricing.ts:23-26 | Raw grams grow with volume. |
| Pricing.UnitPriceMonotone | src/lib/pricing.ts:29-33 | The unit price grows with grams. |
| Pricing.OrderTotalMonotone | src/lib/pricing.ts:35-37 | The total grows with the unit price. |
| Pricing.EstimatedVolumeIsScaledMeshVolume | src/lib/pricing.ts:19-20 | Multiplying the base volume by scale³ gives the volume of the mesh actually scaled by that factor. |
| Upload.AxisLimit | src/app/upload/page.tsx:82-94 | An axis of positive size allows exactly the scale that makes it 256 mm. A zero axis imposes no limit. |
| Upload.MinLimit | src/app/upload/page.tsx:82-94 | The combined limit is one of the two limits and is at most both; it is unbounded only when both are. |
| Upload.MaxScale | src/app/upload/page.tsx:82-94 | The maximum scale is the smallest per-axis limit: positive, at most every axis's limit and equal to one of them, and absent only when the model is flat on all three axes. |
| Upload.EffectiveMax | src/app/upload/page.tsx:97-100 | `maxScale \|\| 1`: a non-zero maximum is kept, a zero maximum becomes 1, and no maximum stays unbounded. |
| Upload.SizeAndLimitsOf | src/app/upload/page.tsx:82-94 | Limits exist exactly when a geometry is loaded, and their maximum is the one computed from its size. |
| Upload.RequestedScale | src/app/upload/page.tsx:96 | The requested scale is never below 1%, and is the percentage itself from 1% up. |
| Upload.ClampedScale | src/app/upload/page.tsx:97-100 | The clamped scale is the smaller of the request and the effective maximum: at most both and equal to one of them. It equals the request without a model or without a maximum, and is positive. |
| Upload.ScaleLimitedIff | src/app/upload/page.tsx:264 | The "limited" note appears exactly when a model is loaded, it has a maximum, and the request exceeds it. |
| Upload.ClampedScaleFits | src/app/upload/page.tsx:82-100 | On every axis with extent, base size times the clamped scale is at most 256 mm. |
| Upload.ScaledModelFitsBuildVolume | src/app/upload/page.tsx:82-100 | The loaded model scaled by the clamped scale fits the 256 mm build cube on every axis. |
| Upload.ScaledExtentBound | src/app/upload/page.tsx:260 | If size times scale fits on an axis, the extent of the scaled vertices fits too. |
| Upload.NormalizeQuantity | src/app/upload/page.tsx:213-216 | The stored quantity is at least 1: the floor of a finite entry of at least 1, otherwise 1. |
| Upload.EstimateQuantity | src/app/upload/page.tsx:109 | The quantity given to the estimator is at least 1 and is the stored quantity when that is already at least 1. |
| Upload.EstimateSeesStoredQuantity | src/app/upload/page.tsx:109-216 | Normalising twice changes nothing: the estimator sees exactly the quantity the input stored. |
| Upload.NormalizeScaleInput | src/app/upload/page.tsx:237-240 | A typed scale is floored and raised to at least 1%; a non-finite entry becomes 100%. |
| Upload.MaxPct | src/app/upload/page.tsx:224 | The largest allowed whole percentage is the floor of 100 × the effective maximum. |
| Upload.SliderMax | src/app/upload/page.tsx:224 | The slider runs to 300% without a model, otherwise to the largest allowed percentage. |
| Upload.BlurAsWritten | src/app/upload/page.tsx:241-246 | As written, blur sets the slider to the pre-clamp `scalePct` captured in the closure. |
| Upload.BlurAsWrittenDesynchronises | src/app/upload/page.tsx:241-246 | For a 512 mm part (maximum 50%), typing 80% and leaving the field gives scale 50% but slider 80%. |
| Upload.Blur | src/app/upload/page.tsx:241-246 | Blur leaves scale and slider equal and within the maximum, lowering the scale only to that maximum. |
| Upload.BlurLowersToMax | src/app/upload/page.tsx:241-246 | With a model loaded, blur sets scale and slider both to the typed percentage lowered to the largest allowed one. |
| Upload.BlurRemovesClamp | src/app/upload/page.tsx:97-100 | After blur the clamp no longer changes the scale, and no "limited" note is shown. |
| Upload.UploadForm.constructor | src/app/upload/page.tsx:37-41 | The form starts with PLA, standard quality, black, one item and 100% scale, and is valid. |
| Upload.UploadForm.Estimate | src/app/upload/page.tsx:102-111 | An estimate is shown exactly when a model is loaded. It prices that model at the clamped scale and the stored quantity. |
| Upload.UploadForm.OnMaterialChange | src/app/upload/page.tsx:158 | A material change sets the material, resets the colour to its first, and changes nothing else. |
| Upload.UploadForm.OnQuantityChange | src/app/upload/page.tsx:213-216 | The quantity becomes the normalised entry; nothing else changes. |
| Upload.UploadForm.OnSliderChange | src/app/upload/page.tsx:226-229 | Moving the slider sets slider and scale to the same value. |
| Upload.UploadForm.OnScaleInputChange | src/app/upload/page.tsx:237-240 | Typing sets the scale to the normalised entry and leaves the slider alone. |
| Upload.UploadForm.OnScaleBlur | src/app/upload/page.tsx:241-246 | Leaving the scale input applies the corrected blur to the percentages. |
| Records.StatusNamesDistinct | convex/orders.ts:15 | Two statuses have the same name exactly when they are the same status. |
| Records.NewOrder | convex/prints.ts:25-29 | A new order is a draft for the given print, stamped with the given time, with no Stripe fields. |
| Records.PatchStatus | convex/orders.ts:31-43 | A status patch sets the status and keeps every other field. |
| Records.PatchStatusLastWins | convex/orders.ts:31-43 | Two status patches amount to the later one, and repeating one changes nothing. |
| Records.StatusPatchesAreUnguarded | convex/orders.ts:31-43 | A paid order can be canceled and a canceled order marked paid. |
| Records.ApplyDetails | convex/orders.ts:74-77 | Every field that was sent replaces the stored one. Unsent fields, the status, the print, the time and the session id stay. |
| Records.ApplyDetailsIdempotent | convex/orders.ts:74-77 | Applying the same details twice is applying them once, and an empty patch changes nothing. |
| Records.DetailsCommuteWithStatus | convex/orders.ts:31-77 | Details and status patches commute. |
| Records.Collect | convex/orders.ts:14 | Collecting n orders yields the stored orders 0…n-1 in creation order. |
| Records.FilterByStatus | convex/orders.ts:15 | The filter keeps exactly the documents whose status matches, and keeps them distinct. |
| Records.InsertNewestFirst | convex/orders.ts:16 | Insertion adds exactly one element and keeps the list newest-first. |
| Records.SortNewestFirst | convex/orders.ts:16 | The sort is a permutation of its input, ordered by createdAt descending. |
| Records.PermutationKeepsDistinct | convex/orders.ts:16 | Reordering a list without repeats keeps it without repeats. |
| Records.PairWithPrints | convex/orders.ts:17-19 | Each row pairs the k-th order with the print it refers to, if that print exists. |
| Records.CollectedDocsAreStored | convex/orders.ts:14 | A document is collected exactly when it is a stored order under its own id. |
| Records.ListingIsExact | convex/orders.ts:11-22 | The listing holds exactly the stored orders whose status matches, each once, newest first, each with its print. |
| Records.ListingRowsAreStored | convex/orders.ts:11-22 | Every listed row is a stored order whose status matches, paired with the print it refers to. |
| Records.ListingIsComplete | convex/orders.ts:11-22 | Every stored order whose status matches appears in the listing. |
| Records.ListingIsDistinct | convex/orders.ts:11-22 | No order appears twice in the listing. |
| Records.EmptyFilterListsAll | convex/orders.ts:15 | No status or an empty status selects every order, and a status name selects exactly the orders with that status. |
| Records.Db.constructor | convex/prints.ts:4-32 | The tables start empty and valid. |
| Records.Db.CreatePrintAndOrder | convex/prints.ts:4-32 | Inserts a draft print holding the arguments and a draft order for it, both stamped now, under fresh ids. |
| Records.Db.GetOrderById | convex/orders.ts:4-9 | Returns the stored order exactly when the id exists. |
| Records.Db.ListOrders | convex/orders.ts:11-22 | Returns exactly the stored orders whose status matches, each once, newest first, each with its existing print. |
| Records.Db.SetStripeSessionId | convex/orders.ts:24-29 | Overwrites the session id of an existing order and nothing else; fails without change for a missing id. |
| Records.Db.MarkOrderPaid | convex/orders.ts:31-36 | Sets an existing order's status to paid from any status and changes nothing else. |
| Records.Db.MarkOrderCanceled | convex/orders.ts:38-43 | Sets an existing order's status to canceled from any status and changes nothing else. |
| Records.Db.ApplySessionDetails | convex/orders.ts:45-78 | Writes the sent detail fields of an existing order, never its status or print. |
| Checkout.OrderIdText | convex/checkout.ts:88-90 | The order id written into URLs and metadata parses back to the same id. |
| Checkout.SiteUrl | convex/checkout.ts:29 | The site URL is never empty. It is `SITE_URL` when that is set and non-empty, otherwise `CONVEX_SITE_URL` when that is, otherwise the localhost default. |
| Checkout.JsRoundOfInt | convex/checkout.ts:39 | `Math.round` leaves a whole number unchanged. |
| Checkout.UnitAmountOfWholeCents | convex/checkout.ts:39 | A whole-cent price becomes exactly its number of cents. |
| Checkout.PartLine | convex/checkout.ts:31-43 | The part line is named after the file, is for at least one item, and charges the price in cents. |
| Checkout.BaseFeeLine | convex/checkout.ts:45-54 | The base-fee line is one unit named "Base fee" with no description, charging a whole-cent base fee as exactly its number of cents. |
| Checkout.LineItems | convex/checkout.ts:31-54 | The part line comes first, followed by the base-fee line exactly when the base fee is positive. |
| Checkout.ChargeMatchesEstimateTotal | convex/checkout.ts:31-54 | For a print saved from an estimate, Stripe is asked for exactly the estimate's total, in cents. |
| Checkout.CustomerRequestFor | convex/checkout.ts:57-78 | The customer carries the form's name and email, the form's street, city, state and zip as a US billing address, the same shipping address and name, and the order id in its metadata. |
| Checkout.SessionRequestFor | convex/checkout.ts:80-91 | The session carries the line items and customer, return URLs for this order, its id, and the notes (default ""). |
| Checkout.CreateCheckoutSession | convex/checkout.ts:16-97 | Corrected: the print is read from its table. A missing order fails before any Stripe call. A Stripe failure leaves the orders unchanged. On success the session id is stored and the URL returned. |
| Checkout.PrintsQueryError | convex/checkout.ts:26 | Running a prints query fails exactly when convex/prints.ts does not export that name. |
| Checkout.GetPrintByIdIsMissing | convex/checkout.ts:26 | `getPrintById` is not exported by the prints module, so calling it fails. |
| Checkout.CreateCheckoutSessionAsWritten | convex/checkout.ts:16-27 | As written, a missing order fails with "Order not found" and every stored order fails at the print lookup; no Stripe call is made in either case. |
| Webhooks.AmountFromCents | convex/webhooks.ts:37-38 | A non-zero cent amount becomes dollars; a missing or zero amount is not sent. |
| Webhooks.AmountRoundTrip | convex/webhooks.ts:37-38 | A non-zero whole-cent amount sent to Stripe in cents comes back as the same amount. |
| Webhooks.ZeroAmountIsAbsent | convex/webhooks.ts:37-38 | A zero total leaves the stored amount as it was. |
| Webhooks.PaymentIntentIdOf | convex/webhooks.ts:41 | The payment intent id comes from a string or an expanded object, and is absent otherwise. |
| Webhooks.CopyAddress | convex/webhooks.ts:42-61 | An address is copied field by field, and only when there is one. |
| Webhooks.DetailsFromSession | convex/webhooks.ts:34-62 | Each detail field is taken from the corresponding part of the retrieved session. |
| Webhooks.PresentDetailNames | convex/webhooks.ts:34-62 | The argument names sent for details are all declared by the validator. |
| Webhooks.ArgNamesAsWritten | convex/webhooks.ts:34-36 | As written, the call always carries `livemode`. |
| Webhooks.LivemodeArgumentAlwaysRejected | convex/orders.ts:46-73 | As written, the validator rejects the details call for every session. |
| Webhooks.CompletedAsWrittenLosesDetails | convex/webhooks.ts:28-62 | As written, a completed 8.00 session marks the order paid but stores no amount. Corrected, the 8.00 is stored. |
| Webhooks.ArgumentsAccepted | convex/orders.ts:46-73 | Without `livemode`, the details call is accepted for every session. |
| Webhooks.CompletedOrder | convex/webhooks.ts:24-65 | A completed session leaves the order paid with its print, time and session id unchanged. |
| Webhooks.CompletedRedeliveryIsIdempotent | convex/webhooks.ts:24-65 | A redelivered completed event leaves the order as the first delivery did. |
| Webhooks.ExpiredAfterCompletedCancels | convex/webhooks.ts:66-73 | An expired event after a completed one cancels the paid order and keeps its stored details. |
| Webhooks.TargetOf | convex/webhooks.ts:26-27 | An absent or empty order id skips the update; an order target is exactly the id the text names. |
| Webhooks.CheckoutMetadataLeadsToOrder | convex/webhooks.ts:26-27 | The order id written by checkout leads back to that order. |
| Webhooks.WebhookStep | convex/webhooks.ts:4-80 | The handler's answer and resulting orders table: only the order the verified event names can change, and a 400 answer changes nothing. |
| Webhooks.WebhookAnswers | convex/webhooks.ts:8-79 | 400 "Missing webhook configuration" without a header or secret, 400 "Webhook Error: …" when verification fails, and 200 "ok" with nothing changed for an event naming no order or of any other type. |
| Webhooks.CompletedAsWrittenThrowsAfterPaying | convex/webhooks.ts:24-62 | As written, a completed session for a stored order leaves the order paid without details and ends with the validator's error, so Stripe redelivers. |
| Webhooks.CompletedStoresDetails | convex/webhooks.ts:24-62 | Without `livemode`, the same delivery is acknowledged and leaves the order paid and detailed. |
| Webhooks.ExpiredCancels | convex/webhooks.ts:66-73 | An expired session for a stored order cancels it, whatever its status, and is acknowledged. |
| Webhooks.HandleWebhook | convex/webhooks.ts:4-80 | The handler, for the argument names the details call sends, answers and leaves the orders as `WebhookStep` says and keeps the prints. |
| Webhooks.StripeWebhook | convex/webhooks.ts:4-80 | As written: the details call carries `livemode`, so a completed session for a stored order throws after the order is marked paid. |
| Webhooks.StripeWebhookCorrected | convex/webhooks.ts:4-80 | Corrected: without `livemode`, a completed session for a stored order is acknowledged with the order paid and detailed. |
| Admin.KeepMatching | src/app/admin/page.tsx:26-30 | Keeps exactly the rows that match the term. |
| Admin.Filtered | src/app/admin/page.tsx:22-31 | An empty term shows every row; otherwise exactly the rows matching the trimmed, lower-cased term. |
| Admin.SubsequenceOfSelf | src/app/admin/page.tsx:25 | Every list is an order-preserving selection of itself. |
| Admin.KeepMatchingIsSubsequence | src/app/admin/page.tsx:26-30 | Matching rows keep their listed order. |
| Admin.FilteredIsOrderPreservingSelection | src/app/admin/page.tsx:22-31 | The search keeps the listed order and keeps exactly the matching rows. |
| Admin.SearchIgnoresSurroundingWhitespace | src/app/admin/page.tsx:24 | Surrounding whitespace in the search box changes nothing. |
| Admin.DisplayTotal | src/app/admin/page.tsx:68 | Shows Stripe's amount when stored, else the print's estimated total, else 0. |
| Admin.NewOrderShowsEstimate | src/app/admin/page.tsx:68 | A new order shows its print's estimated total. |
| Admin.PaidOrderShowsChargedAmount | src/app/admin/page.tsx:68 | Once a completed session with a non-zero total is stored, the dashboard shows exactly that amount. |
| Admin.StatusButtons | src/app/admin/page.tsx:122-127 | Every order offers a button. Each button is hidden once its status is reached, and paid and canceled each offer the other. |
| Admin.AdminPage.DownloadDisabled | src/app/admin/page.tsx:84 | A download button is disabled exactly while its order is downloading. |
| Admin.AdminPage.StartDownload | src/app/admin/page.tsx:86-90 | Starting a download marks the order as downloading. |
| Admin.AdminPage.FinishDownload | src/app/admin/page.tsx:111-115 | Finishing a download unmarks the order. |
| Admin.AdminPage.Download | src/app/admin/page.tsx:84-115 | Reports a save only for a saved file, and leaves the order unmarked however the download ends. |
| Text.TrimIsInnerSlice | src/app/admin/page.tsx:24 | `trim` removes exactly the leading and trailing whitespace. |
| Text.TrimIdempotent | src/app/admin/page.tsx:24 | Trimming twice is trimming once. |
| Text.ToLowerIdempotent | src/app/admin/page.tsx:24 | Lower-casing twice is lower-casing once, and leaves no upper-case ASCII letter. |
| Text.ContainsIff | src/app/admin/page.tsx:26-30 | `includes` holds exactly when the term occurs at some position. |
| Text.ContainsEmpty | src/app/admin/page.tsx:25-30 | The empty term is contained in every text. |
| Text.ParseDecimalText | convex/webhooks.ts:26-27 | A printed order id parses back to the same number. |
| Text.DecimalTextOfParsed | convex/webhooks.ts:26-27 | A canonical decimal text is the printed form of its value. |
| Text.DecimalTextInjective | convex/checkout.ts:88-90 | Different ids print differently. |

## Left out

- The page layout, JSX, three.js rendering and the file loaders (`model.ts`: STL/OBJ parsing) are left out: they are presentation and I/O. The geometry arrives already loaded.
- Floating point: numbers are exact reals, so IEEE-754 rounding error in the volume sum, the division by 6 and `toFixed` is not modelled.
- Geometry.GeometryVolume: a position list whose length is not a multiple of three (the JavaScript loop reads `undefined` and yields NaN) and out-of-range indices are excluded by `Readable`.
- Stripe, signature verification (`constructEventAsync`), `sessions.retrieve` and `customers.create` are function parameters. Their internals, the network and retries are not part of this model.
- Convex storage, transactions, authentication, HTTP routing and the opaque document ids are left out. Ids are consecutive numbers printed in decimal, and a mutation on a missing id reports failure and changes nothing instead of throwing and rolling back.
- `getPrintById`, which the checkout action and the checkout page call, is defined nowhere: convex/prints.ts exports only `createPrintAndOrder`. The as-written action throws at that call (see Findings); the corrected action reads the prints table (`Records.Db.GetPrintById`).
- Concurrency: `Promise.all` in the listing is a sequential map, and concurrent webhook deliveries are not modelled.
- Records.SortNewestFirst: the sort is proved to be a newest-first permutation; the relative order of orders with equal `createdAt` is not stated.
- Text.ToLower and Text.ToUpper: only ASCII letters change case. Unicode case mapping is not modelled.
- The checkout page's form and its draft-only button, and the order-success page, are left out: they hold no logic beyond calling the actions modelled here.
- The slider component's own clamping of its value to its range, and a NaN percentage in state, are left out. Handlers store only normalised integers, so a NaN percentage never arises.
- Admin.AdminPage.Download: the storage URL lookup, the fetch and the browser save are reduced to their outcome (`DownloadResult`).

## Findings

| source | as written | input that shows it | evidently intended | confidence | as-written member | corrected member |
|---|---|---|---|---|---|---|
| src/app/upload/page.tsx:241-246 | On blur the scale is lowered to the maximum, but the slider is set from the stale `scalePct` captured in the closure | A 512 mm part allows 50%. Type 80 and leave the field: scale 50%, slider 80% (past its 50% end) | The slider moves to the lowered scale | not executed | Upload.BlurAsWrittenDesynchronises | Upload.Blur |
| convex/webhooks.ts:36 | The completed-session handler passes `livemode` to `applySessionDetails`, whose validator (convex/orders.ts:46-73) declares no such argument | Any completed session for a stored order, e.g. one with an 8.00 total: the order is marked paid, the details call is rejected, the handler throws and Stripe redelivers | The session details are stored on the order and the event is acknowledged | not executed | Webhooks.CompletedAsWrittenThrowsAfterPaying | Webhooks.CompletedStoresDetails |
| convex/checkout.ts:26 | The action looks the print up with `api.prints.getPrintById`, which convex/prints.ts does not export | Any stored order: the action throws after the order lookup and never reaches Stripe | The print is read by its id and the Stripe session is created | not executed | Checkout.CreateCheckoutSessionAsWritten | Checkout.CreateCheckoutSession |
