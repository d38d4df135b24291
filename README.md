# Nyassobi WP Plugin: settings and contact mutation, in Dafny

This project models the decision logic of the Nyassobi WordPress plugin
(`Nyassobi_WP_Plugin`). The plugin serves a headless front end. It keeps five
administrator settings and exposes them as the GraphQL type
`NyassobiSettings`. It also handles the `sendNyassobiContactMessage`
mutation, which sends a contact request by mail.

- `php.dfy` (module `Php`) covers the PHP semantics the plugin relies on:
  - loosely typed values, the `(string)` cast and the truthiness of a string;
  - `isset` / `??` on array elements, and `implode`.
- `wordpress.dfy` (module `WordPress`) holds the WordPress helpers the plugin calls:
  - `sanitize_text_field`, `sanitize_textarea_field`, `sanitize_email`,
    `esc_url_raw` and `is_email` are uninterpreted functions, grouped in a `Host` record;
  - `RejectsTrivial` is the one fact about `is_email` that some lemmas assume:
    it rejects `""` and `"0"`.
- `settings.dfy` (module `Settings`) covers the settings:
  - the field definition;
  - `sanitize_settings`, written as a method with a loop, like the source's `foreach`;
  - `get_settings`, `format_settings_for_graphql`, and the lemmas relating them.
- `contact.dfy` (module `Contact`) covers `handle_contact_mutation`:
  - a method that runs the guards in order, reassigns the recipient and
    appends the Reply-To header, as the source does;
  - the functions that specify each stage, and lemmas about them.

The collaborators are parameters. `get_option` becomes the stored value
(`stored`, `adminEmail`). `wp_mail` becomes `transport: Mail -> bool`. The
`apply_filters` hooks become a `Hooks` record; `DefaultHooks` is the
behaviour when no callback is registered. Whether GraphQL's `UserError`
class exists becomes a boolean. A thrown `UserError` is the `UserError`
outcome. The handler's `sent` result records the mail given to the
transport, so "nothing is sent" is `sent == None`.

The plugin defines five settings fields; there is no intro-text field. A
GraphQL settings field is null only when its key is absent; a stored empty
string stays `""`.

## Model

| member | source | states |
|---|---|---|
| `Settings.FieldsDefinition` | includes/class-nyassobi-wp-plugin.php:457-486 | Five fields with distinct keys. A field is of email type exactly when its key is `contact_email`; the other four are URL fields. |
| `Settings.DefinitionKeys` | includes/class-nyassobi-wp-plugin.php:459-485 | The definition's keys are exactly the five setting keys. |
| `Settings.RawSetting` | includes/class-nyassobi-wp-plugin.php:174 | The raw value of one field, `isset($input[$key]) ? (string) $input[$key] : ''`. A null input, or a missing or null entry, gives `""`. A string entry is passed on unchanged; any other entry is cast to a string. |
| `Settings.SanitizeFields` | includes/class-nyassobi-wp-plugin.php:173-181 | The loop over the definition leaves exactly the definition's keys. Each key holds its raw value passed through the sanitiser that the field's type selects. |
| `Settings.SanitizeSettings` | includes/class-nyassobi-wp-plugin.php:168-190 | For any input, including null, the result has exactly the five defined keys. `contact_email` is `sanitize_email` of the raw value. Every URL key is `esc_url_raw` of its raw value. A missing or null entry counts as `""`. The final filter removes nothing. |
| `Settings.GetSettings` | includes/class-nyassobi-wp-plugin.php:418-432 | A stored value that is not an array gives the empty map. Otherwise the keys are kept and every value is cast to a string. |
| `Settings.SavedSettingsReadBack` | includes/class-nyassobi-wp-plugin.php:418-432 | Reading back a saved array of strings returns exactly that array. |
| `Settings.FormatSettingsForGraphQL` | includes/class-nyassobi-wp-plugin.php:439-450 | Always exactly the five camelCase keys. Each is null exactly when its snake_case key is absent from the stored array, or when nothing array-shaped is stored. Otherwise it is the stored value as a string. |
| `Settings.ProjectionCoversFields` | includes/class-nyassobi-wp-plugin.php:443-449 | The GraphQL fields read exactly the keys of the field definition, in the same order. Each one is published under one of the five output names. |
| `Settings.SavedSettingsFullyProjected` | includes/class-nyassobi-wp-plugin.php:439-450 | After a sanitised five-key array is saved, no GraphQL field is null. Each field equals the saved string, `""` included. |
| `Contact.SanitizeInput` | includes/class-nyassobi-wp-plugin.php:321-333 | Each of fullname, email, subject and message is `$input[k] ?? ''` cast to a string and passed through its sanitiser: `sanitize_text_field`, `sanitize_email`, `sanitize_text_field` and `sanitize_textarea_field` respectively. A missing or null field is sanitised as `""`. A missing or null token is `""` and is not sanitised; otherwise the token goes through `sanitize_text_field`. |
| `Contact.ErrorMessagesDistinct` | includes/class-nyassobi-wp-plugin.php:336-365 | The six thrown error texts are pairwise different: two errors have the same text exactly when they are the same error. |
| `Contact.Validate` | includes/class-nyassobi-wp-plugin.php:335-349 | Checks run in the order fullname, subject, message, `is_email(email)`. Each error is raised exactly when its check fails and all earlier checks pass. No error is raised exactly when all four pass. |
| `Contact.FirstFailureIsEarliest` | includes/class-nyassobi-wp-plugin.php:335-349 | The first-failure rule: no error exactly when every check passes. Otherwise the error comes from a failing check preceded only by passing checks. |
| `Contact.ValidateReportsFirstFailure` | includes/class-nyassobi-wp-plugin.php:335-349 | The handler's validation equals the first failure of its ordered list of checks. |
| `Contact.ResolveRecipient` | includes/class-nyassobi-wp-plugin.php:357-366 | The recipient is the sanitised `contact_email` if `is_email` accepts it, else the sanitised `admin_email`. There is no recipient exactly when `is_email` rejects both. Any recipient returned passes `is_email`. |
| `Contact.ImplodeNine` | includes/class-nyassobi-wp-plugin.php:380 | `implode` of nine parts places the separator between each pair of consecutive parts. |
| `Contact.MailBodyLayout` | includes/class-nyassobi-wp-plugin.php:368-380 | The body is the fixed template text with fullname, email, subject and message in their fixed places, lines joined by `"\n"`. |
| `Contact.ComposeHeaders` | includes/class-nyassobi-wp-plugin.php:383-387 | The first header is always the content type. A second header, Reply-To, is added exactly when the sanitised email is truthy, meaning neither `""` nor `"0"`. It names the requester by fullname, or by the email address when the fullname is empty. |
| `Contact.ReplyToOnValidInput` | includes/class-nyassobi-wp-plugin.php:383-387 | When validation passes and `is_email` rejects `""` and `"0"`, the headers are exactly the content-type header and `Reply-To: <fullname> <<email>>`. |
| `Contact.FilteredMail` | includes/class-nyassobi-wp-plugin.php:389-392 | Each of the recipient, `"[Nyassobi] " + subject`, the template body and the composed headers goes through its own filter. Each filter also receives the sanitised fields and the raw input. With no callbacks registered, the mail is the unfiltered one. |
| `Contact.DefaultHooksMail` | includes/class-nyassobi-wp-plugin.php:389-392 | With no filter callbacks, the token check passes. The mail goes to the resolved recipient with subject `"[Nyassobi] " + subject`, the template body and the composed headers. |
| `Contact.HandleContactMutation` | includes/class-nyassobi-wp-plugin.php:309-411 | Without the UserError class the result is `{success:false}` and nothing is validated or sent. The first failing stage decides the outcome: validation, then the token filter, then recipient resolution, then the re-check of the filtered recipient. No error path sends mail, and every thrown error carries its own text. Otherwise exactly the filtered mail is sent. The result is `{success:true, "Thank you! …"}` exactly when the transport reports success, and `{success:false, "…try again later."}` when it does not. |

## Left out

- The field definition's labels and descriptions are not modelled. Only the settings page renders them, and the page is left out.
- Bootstrap and hook wiring are not modelled: the plugin main file, the singleton and the constructor's `add_action` calls. They are framework lifecycle glue.
- The admin screens are not modelled: `register_settings`, `register_settings_page`, `render_settings_page` and `render_field`. They are host registration calls and HTML output.
- Schema registration is not modelled: `register_graphql_types` and `register_contact_mutation`. They are WPGraphQL registration calls. Their output resolvers only coerce the payload that `HandleContactMutation` already returns as `{success, message}`.
- WordPress's sanitisers, `is_email`, `get_option`, `wp_mail` and `apply_filters` are foreign code. They are uninterpreted parameters. `__()` translation is not modelled, so messages are the literal English strings.
- PHP arrays are ordered; the model's maps are not. Key order in the saved option and in the GraphQL result is not captured.
- Integer array keys, floats and objects in stored values are not modelled. Only string keys and null/bool/int/string/array values are.
- A hook is modelled as returning a value of the shape it was given (a boolean, a string, a list of strings). PHP would let a callback return any type.
