# Wellness app core, modelled in Dafny

The application is a single-page wellness companion. Its screens are:

- a guided breathing exercise;
- three small games (memory matching, a Simon colour sequence, a timed focus game) that share one statistics record;
- a ten-question self-assessment with per-category scores;
- a journal with tags and search;
- a phrase translator;
- a motivation screen of quotes, jokes and tips with favourites;
- a book reader with bookmarks;
- a therapist directory with filters;
- a mixer of calming sounds;
- an animated particle scene;
- the shell, with the greeting, the theme switch and the feature tabs.

This project models the state and the rules of each screen, one Dafny module per source file:

- Pure rules are datatypes, functions and lemmas.
- State the screen changes in place is a class whose methods are proved against those functions:
  - the breathing session, the games, the assessment;
  - the journal, translator, motivation and reader screens;
  - the sound list (an array updated in place);
  - the particle buffer (an array built in a loop and moved in place every frame);
  - the shell.
- `Common` holds the list and string operations the screens share:
  - `filter`, `trim`, `split`, `join`;
  - ASCII `toLowerCase` and `includes`.

Some inputs are parameters instead of being read from the environment:

- every `Math.random()` draw, as a real in [0, 1);
- every clock reading: `Date.now()` ids, dates and the hour of the day;
- the stored theme and the system colour-scheme preference.

Every timer callback (interval tick, `setTimeout`, animation frame) is an explicit method the caller invokes.

## Model

| member | source | states |
|---|---|---|
| Breathing.CatalogWellFormed | src/components/breathing-exercise.tsx:16-21 | every catalogue pattern has positive inhale, exhale and cycle count |
| Breathing.PhaseSeconds | src/components/breathing-exercise.tsx:62-69 | `ready` and `complete` have duration 0; the breathing phases take the pattern's seconds |
| Breathing.NextPhase | src/components/breathing-exercise.tsx:71-103 | the phase clock and progress are cleared; ready goes to inhale; inhale goes to hold, or to exhale when hold is 0; hold goes to exhale; exhale increments the cycle and completes (and stops) exactly when the new cycle reaches `cycles`, else returns to inhale still running; complete stays complete |
| Breathing.Ticked | src/components/breathing-exercise.tsx:37-52 | an inactive session is unchanged; an active one adds one tick to the total, and either moves to the next phase once the phase clock reaches the duration or advances the phase clock |
| Breathing.Paused | src/components/breathing-exercise.tsx:114-116 | only `isActive` changes, to false |
| Breathing.Resumed | src/components/breathing-exercise.tsx:250-251 | only `isActive` changes; it becomes true exactly when it was true or the phase is a breathing phase |
| Breathing.InvInitial | src/components/breathing-exercise.tsx:105-125 | the idle and started sessions satisfy the session invariant |
| Breathing.NextPhaseKeepsInv | src/components/breathing-exercise.tsx:71-103 | a phase change keeps the invariant: clock below duration, progress in [0, 100), only breathing phases run, cycle below `cycles` while breathing and equal to it when complete |
| Breathing.TickKeepsInv | src/components/breathing-exercise.tsx:39-52 | a tick keeps the session invariant, including progress below 100 percent |
| Breathing.PauseResumeKeepInv | src/components/breathing-exercise.tsx:114-116 | pause and resume keep the session invariant |
| Breathing.TicksWithinPhase | src/components/breathing-exercise.tsx:39-52 | ticks that stay inside one phase only advance the phase clock and the total time |
| Breathing.PhaseRunsItsDuration | src/components/breathing-exercise.tsx:43-48 | a breathing phase entered with a clear clock ends after exactly its duration in ticks |
| Breathing.OneCycle | src/components/breathing-exercise.tsx:35 | from an inhale, after `inhale + hold + exhale` seconds the next cycle's inhale begins, or the session is complete after the last cycle |
| Breathing.SessionCompletes | src/components/breathing-exercise.tsx:89-100 | from Start, after `cycles` full cycles the session is complete and stopped, with the cycle counter at `cycles` |
| Breathing.FourSevenEightFirstCycle | src/components/breathing-exercise.tsx:17 | for the 4-7-8 technique, 19 seconds after Start the second cycle's inhale begins |
| Breathing.EqualBreathingSkipsHold | src/components/breathing-exercise.tsx:19 | equal breathing (no hold) goes straight from a 4-second inhale to exhale |
| Breathing.BreathingExercise.constructor | src/components/breathing-exercise.tsx:26-32 | the first pattern is selected and the session is idle |
| Breathing.BreathingExercise.MoveToNextPhase | src/components/breathing-exercise.tsx:71-103 | the fields become `NextPhase` of the old session and the invariant holds |
| Breathing.BreathingExercise.Tick | src/components/breathing-exercise.tsx:39-52 | the fields become `Ticked` of the old session and the invariant holds |
| Breathing.BreathingExercise.StartExercise | src/components/breathing-exercise.tsx:105-112 | active, inhale, cycle 0, all clocks 0 |
| Breathing.BreathingExercise.PauseExercise | src/components/breathing-exercise.tsx:114-116 | the fields become `Paused` of the old session |
| Breathing.BreathingExercise.ResumeExercise | src/components/breathing-exercise.tsx:250-251 | the fields become `Resumed` of the old session |
| Breathing.BreathingExercise.ResetExercise | src/components/breathing-exercise.tsx:118-125 | inactive, ready, cycle 0, all clocks 0; the pattern is kept |
| Breathing.BreathingExercise.SelectPattern | src/components/breathing-exercise.tsx:160-163 | the chosen catalogue pattern is selected and the session is reset |
| Games.MemoryWon | src/components/wellness-games.tsx:119-128 | the memory best becomes the maximum of the old best and the final score; one more game is played; the final score is added to the total; the Simon best is unchanged |
| Games.SimonLost | src/components/wellness-games.tsx:169-178 | the Simon best becomes the maximum of the old best and the score; one more game is played; the score is added to the total; the memory best is unchanged |
| Games.FocusEnded | src/components/wellness-games.tsx:207-215 | one more game is played and the score is added to the total; both best scores are unchanged |
| Games.RecordAllTotals | src/components/wellness-games.tsx:71-74 | over any run of games, `gamesPlayed` counts them, `totalScore` adds up their scores, and each best score is at least every score of its game |
| Games.NewMemory | src/components/wellness-games.tsx:77-93 | card i shows the i-th shuffled emoji with id i, face down and unmatched; nothing is up; no moves, no matches, score 1000 |
| Games.NewMemoryDeck | src/components/wellness-games.tsx:77-93 | a new deck from any shuffle of the doubled emoji list has 16 unmatched cards, each of the 8 emojis exactly twice, no moves, no matches and score 1000 |
| Games.FlipRules | src/components/wellness-games.tsx:95-136 | a click is ignored while two cards are up or on an up or matched card; a first card is turned up; a second card costs a move and 50 points (not below 0); on a match exactly the two cards become matched, 200 points are added, and the last pair saves the statistics with the handler's score + 200; on a mismatch both cards stay up |
| Games.Flip | src/components/wellness-games.tsx:95-136 | a click keeps the deck size, costs at most one move and completes at most one pair; a completed pair leaves nothing up and scores max(0, score - 50) + 200 |
| Games.FlipKeepsInv | src/components/wellness-games.tsx:95-136 | a click keeps the deck invariant: card ids equal positions, at most two distinct unmatched cards are up, and `matches` is half the number of matched cards |
| Games.ClearFlipped | src/components/wellness-games.tsx:131-133 | only the up cards change, to none, and the deck invariant is kept |
| Games.MemoryCompleteIffAllMatched | src/components/wellness-games.tsx:119 | on a full deck, `matches` reaches 8 exactly when every card is matched |
| Games.StartSimon | src/components/wellness-games.tsx:139-147 | a new game holds one colour, score 0, and the sequence is being shown |
| Games.Press | src/components/wellness-games.tsx:163-196 | a press is ignored unless playing and not showing; a wrong colour ends the game and saves the Simon statistics; the last right colour of a level adds 100 per colour and one new colour, and clears the presses; any other right colour advances the step. The presses always spell the start of the sequence |
| Games.RepeatingSequenceCompletesLevel | src/components/wellness-games.tsx:181-192 | pressing the whole sequence back completes the level: the sequence grows by exactly one colour and the score by 100 per colour |
| Games.StartFocus | src/components/wellness-games.tsx:199-204 | active, 60 seconds on the clock, level 50, score 0 |
| Games.FocusTick | src/components/wellness-games.tsx:205-219 | an active countdown above 1 loses a second; at 1 the game stops and saves the statistics and score captured when it started |
| Games.FocusClick | src/components/wellness-games.tsx:222-230 | while active, the points (80 to 120) are added and the level rises by 5 up to 100; otherwise nothing changes |
| Games.FocusCountsDown | src/components/wellness-games.tsx:205-218 | fewer ticks than the clock shows only count the clock down |
| Games.FocusRunsOut | src/components/wellness-games.tsx:205-216 | after as many ticks as the clock shows, the game is over and the start-time statistics are saved |
| Games.FocusLastsSixtySeconds | src/components/wellness-games.tsx:199-220 | a focus game is still on after 59 ticks and over after exactly 60 |
| Games.WellnessGames.constructor | src/components/wellness-games.tsx:36-62 | empty statistics and idle games |
| Games.WellnessGames.InitializeMemoryGame | src/components/wellness-games.tsx:77-93 | the memory state becomes `NewMemory` of the shuffle; nothing else changes |
| Games.WellnessGames.FlipCard | src/components/wellness-games.tsx:95-136 | memory and statistics become `Flip` of the old ones; the other games are untouched |
| Games.WellnessGames.ClearFlippedCards | src/components/wellness-games.tsx:131-133 | the up cards are turned down; nothing else changes |
| Games.WellnessGames.StartSimonGame | src/components/wellness-games.tsx:139-147 | the Simon state becomes `StartSimon` |
| Games.WellnessGames.ShowSequence | src/components/wellness-games.tsx:149-150 | the sequence display starts |
| Games.WellnessGames.FinishShowingSequence | src/components/wellness-games.tsx:154-157 | the sequence display ends |
| Games.WellnessGames.HandleColorPress | src/components/wellness-games.tsx:163-196 | Simon state and statistics become `Press` of the old ones |
| Games.WellnessGames.StartFocusGame | src/components/wellness-games.tsx:199-204 | the focus state becomes `StartFocus`, capturing the current score and statistics |
| Games.WellnessGames.FocusTimerTick | src/components/wellness-games.tsx:205-219 | focus state and statistics become `FocusTick` of the old ones |
| Games.WellnessGames.HandleFocusClick | src/components/wellness-games.tsx:222-230 | the focus state becomes `FocusClick` of the old one |
| Assessment.ResponseOf | src/components/mental-health-assessment.tsx:121 | an answered question counts its answer and an unanswered one counts 0; with valid answers the result is at most 3 |
| Assessment.SumBounded | src/components/mental-health-assessment.tsx:120-124 | a category's sum is at most 3 per question in it |
| Assessment.EachCategoryTwice | src/components/mental-health-assessment.tsx:30-41 | each of the five categories has exactly two questions |
| Assessment.RoundDiv | src/components/mental-health-assessment.tsx:129 | the result is the integer nearest to `n/d`, halves rounded up, as `Math.round` does for non-negative ratios |
| Assessment.NormalizedAtMost100 | src/components/mental-health-assessment.tsx:129 | a category sum of at most 3 per question normalises to at most 100 |
| Assessment.ScoresInRange | src/components/mental-health-assessment.tsx:103-136 | all five category scores and the overall score lie in [0, 100] |
| Assessment.NoAnswersScoreZero | src/components/mental-health-assessment.tsx:121 | with no answers every score is 0 |
| Assessment.AllMaximalScoreHundred | src/components/mental-health-assessment.tsx:127-133 | with every answer at 3 every score is 100 |
| Assessment.SumByCategory | src/components/mental-health-assessment.tsx:104-124 | the loop leaves, for every category, the sum of its answers and its number of questions |
| Assessment.CalculateScores | src/components/mental-health-assessment.tsx:103-136 | the result is `ScoresOf`: each category normalised to 0-100, overall the rounded mean of the five |
| Assessment.ScoreLevel | src/components/mental-health-assessment.tsx:145-150 | the level is the label of the score's band, the number of thresholds 25, 50, 75 the score exceeds |
| Assessment.ScoreColor | src/components/mental-health-assessment.tsx:138-143 | the colour is the colour of the same band, so level and colour always agree |
| Assessment.BandMonotone | src/components/mental-health-assessment.tsx:138-150 | a higher score never falls in a lower band |
| Assessment.MentalHealthAssessment.constructor | src/components/mental-health-assessment.tsx:51-54 | first question, no answers, not completed, empty history |
| Assessment.MentalHealthAssessment.HandleResponse | src/components/mental-health-assessment.tsx:74-76 | only that question's answer is set |
| Assessment.MentalHealthAssessment.SaveAssessment | src/components/mental-health-assessment.tsx:68-72 | the new assessment is prepended to the history |
| Assessment.MentalHealthAssessment.CompleteAssessment | src/components/mental-health-assessment.tsx:92-101 | the scores of the current answers are saved first in the history, and the assessment is completed |
| Assessment.MentalHealthAssessment.NextQuestion | src/components/mental-health-assessment.tsx:78-84 | below the last question it advances; on the last it completes the assessment |
| Assessment.MentalHealthAssessment.PrevQuestion | src/components/mental-health-assessment.tsx:86-90 | goes back one question, but never below the first |
| Assessment.MentalHealthAssessment.ResetAssessment | src/components/mental-health-assessment.tsx:152-156 | first question, no answers, not completed; the history is kept |
| Journal.ParseTags | src/components/journal.tsx:74 | the parsed tags are non-empty, trimmed and contain no comma |
| Journal.ParseIgnoresLeadingSpace | src/components/journal.tsx:74 | leading whitespace never changes the parsed tags |
| Journal.TagsRoundTrip | src/components/journal.tsx:100 | tags joined with ", " by the edit form (line 100), when saved again (line 74), parse back to the same tags |
| Journal.ReplaceById | src/components/journal.tsx:78 | every entry with the edited id is replaced and every other entry is kept, position by position |
| Journal.DeleteById | src/components/journal.tsx:89-92 | exactly the entries with another id remain, in order |
| Journal.Search | src/components/journal.tsx:105-109 | exactly the entries whose title, content or one of whose tags contains the term, ignoring case, remain, in order |
| Journal.EmptySearchKeepsAll | src/components/journal.tsx:105-109 | an empty search term lists every entry |
| Journal.EntryFrom | src/components/journal.tsx:68-75 | the new entry has the form's title, content and mood, parsed tags, and the edited entry's id and date, or the fresh id and the current date |
| Journal.EditThenSaveIsIdentity | src/components/journal.tsx:94-103 | editing an entry and saving the untouched form gives back the same entry |
| Journal.Save | src/components/journal.tsx:65-87 | a blank title or content changes nothing; otherwise the form is cleared and writing ends, an edit replaces by id, and a new entry goes first with the fresh id and current date |
| Journal.SaveKeepsInv | src/components/journal.tsx:65-87 | saving keeps every stored entry's tags clean |
| Journal.EditAndSaveKeepsEntries | src/components/journal.tsx:94-103 | with unique ids, opening an entry for edit and saving it untouched leaves the entry list as it was |
| Journal.StartEdit | src/components/journal.tsx:94-103 | the form holds the entry's fields with tags joined by ", ", and writing starts |
| Journal.Cancel | src/components/journal.tsx:174-178 | writing stops, nothing is being edited, and the form is empty |
| Journal.Delete | src/components/journal.tsx:89-92 | deleting keeps every stored entry's tags clean |
| Journal.JournalScreen.constructor | src/components/journal.tsx:38-47 | no entries, not writing, empty form and search term |
| Journal.JournalScreen.SaveEntry | src/components/journal.tsx:65-87 | the screen becomes `Save` of the old one |
| Journal.JournalScreen.DeleteEntry | src/components/journal.tsx:89-92 | the screen becomes `Delete` of the old one |
| Journal.JournalScreen.BeginEdit | src/components/journal.tsx:94-103 | the screen becomes `StartEdit` of the old one |
| Journal.JournalScreen.CancelWriting | src/components/journal.tsx:174-178 | the screen becomes `Cancel` of the old one |
| Journal.JournalScreen.OpenWriting | src/components/journal.tsx:121-122 | only `isWriting` changes, to true |
| Journal.JournalScreen.TypeInForm | src/components/journal.tsx:134 | only the form changes |
| Journal.JournalScreen.SetSearchTerm | src/components/journal.tsx:211 | only the search term changes |
| Journal.JournalScreen.FilteredEntries | src/components/journal.tsx:105-109 | exactly the stored entries matching the search term |
| Translation.TableFor | src/components/translation.tsx:65-94 | a table exists exactly for the keys "en-es" and "en-fr" |
| Translation.Lookup | src/components/translation.tsx:100-102 | a value is found exactly when some entry has the phrase as key, and it is that entry's value |
| Translation.ReverseLookup | src/components/translation.tsx:105-112 | a key is found exactly when some entry has the phrase as value, and it is the key of the first such entry in table order |
| Translation.ReverseSearch | src/components/translation.tsx:107-111 | the `for … of` loop returns `ReverseLookup` of the table |
| Translation.MockTranslate | src/components/translation.tsx:95-116 | the result is `Translate`: a non-empty direct hit, else the reverse search, else the placeholder |
| Translation.Translate | src/components/translation.tsx:95-116 | the answer is never empty: a direct hit is non-empty by the guard, every table key is non-empty, and the placeholder is non-empty |
| Translation.LookupAt | src/components/translation.tsx:100-102 | with distinct keys, looking up the i-th key yields the i-th value |
| Translation.ReverseLookupAt | src/components/translation.tsx:105-112 | with distinct values, the reverse search for the i-th value yields the i-th key |
| Translation.TablesNonEmptyValues | src/components/translation.tsx:65-94 | no table holds an empty translation |
| Translation.RoundTripVia | src/components/translation.tsx:95-116 | a table with distinct keys and values and no table the other way translates each phrase there and back |
| Translation.PairKeyOfTable | src/components/translation.tsx:96-97 | only "en" then "es" or "fr" spells a table key |
| Translation.NoEnglishFallsBack | src/components/translation.tsx:115 | every pair without English gets the placeholder |
| Translation.RoundTripSpanish | src/components/translation.tsx:66-78 | every English-Spanish phrase translates to its Spanish text and back |
| Translation.RoundTripFrench | src/components/translation.tsx:80-93 | every English-French phrase translates to its French text and back |
| Translation.Swap | src/components/translation.tsx:139-149 | the languages always trade places; the texts trade places only when both are non-empty |
| Translation.SwapTwiceRestores | src/components/translation.tsx:139-149 | swapping twice restores the screen |
| Translation.Translated | src/components/translation.tsx:126-137 | a blank source text changes nothing; otherwise the translated text becomes the translation of the source |
| Translation.TranslationScreen.constructor | src/components/translation.tsx:119-124 | empty texts, English to Spanish |
| Translation.TranslationScreen.SetSourceText | src/components/translation.tsx:119 | only the source text changes |
| Translation.TranslationScreen.SetLanguages | src/components/translation.tsx:121-122 | only the two languages change |
| Translation.TranslationScreen.HandleTranslate | src/components/translation.tsx:126-137 | the texts become `Translated` of the old ones |
| Translation.TranslationScreen.SwapLanguages | src/components/translation.tsx:139-149 | the texts become `Swap` of the old ones |
| Favorites.Put | src/components/motivational-content.tsx:227-230 | only the chosen list is replaced |
| Favorites.Add | src/components/motivational-content.tsx:226-232 | the item is appended to its list; the other lists are unchanged |
| Favorites.Remove | src/components/motivational-content.tsx:234-240 | exactly the items of that list not equal to the item remain, in order; the other lists are unchanged |
| Favorites.IsFavorite | src/components/motivational-content.tsx:242-244 | true exactly when an equal item is in that list |
| Favorites.RemovedIsNotFavorite | src/components/motivational-content.tsx:234-244 | after a removal the item is no longer a favourite |
| Favorites.Toggle | src/components/motivational-content.tsx:323-329 | the heart button flips whether the item is a favourite; the other lists are unchanged |
| Favorites.ToggleTwiceRestores | src/components/motivational-content.tsx:323-329 | saving an item that was not a favourite and un-saving it restores every list |
| Favorites.CategoryColor | src/components/motivational-content.tsx:246-260 | a known category gets its colour; any other gets the motivation colour; the result is always one of the table's colours |
| Favorites.PickIndex | src/components/motivational-content.tsx:210-224 | `floor(r * length)` is a valid index for every draw in [0, 1) |
| Favorites.MotivationScreen.constructor | src/components/motivational-content.tsx:187-196 | the first quote, joke and tip are shown; no favourites; punchline hidden |
| Favorites.MotivationScreen.NewQuote | src/components/motivational-content.tsx:210-213 | the quote at the drawn index is shown; nothing else changes |
| Favorites.MotivationScreen.NewJoke | src/components/motivational-content.tsx:215-219 | the joke at the drawn index is shown with its punchline hidden |
| Favorites.MotivationScreen.NewTip | src/components/motivational-content.tsx:221-224 | the tip at the drawn index is shown; nothing else changes |
| Favorites.MotivationScreen.RevealPunchline | src/components/motivational-content.tsx:398 | only the punchline flag changes, to shown |
| Favorites.MotivationScreen.ToggleFavorite | src/components/motivational-content.tsx:323-329 | the favourites become `Toggle` of the old ones for the item on show |
| Favorites.MotivationScreen.RemoveFavorite | src/components/motivational-content.tsx:360 | the favourites become `Remove` of the old ones for that item |
| BookReader.FilterBooks | src/components/book-reader.tsx:150-154 | exactly the books whose title, author or category contains the term, ignoring case, remain, in order |
| BookReader.BookMatches | src/components/book-reader.tsx:150-154 | the search rule: the title, author or category includes the term, ignoring case |
| BookReader.ToggleBookmark | src/components/book-reader.tsx:156-162 | the id is bookmarked afterwards exactly when it was not before; every other id keeps its status |
| BookReader.ToggleTwiceRestores | src/components/book-reader.tsx:156-162 | bookmarking a book and un-bookmarking it restores the list |
| BookReader.ToggleKeepsNoDuplicates | src/components/book-reader.tsx:156-162 | the bookmark list never holds an id twice |
| BookReader.PrevChapter | src/components/book-reader.tsx:235 | one chapter back, never below 0 |
| BookReader.NextChapter | src/components/book-reader.tsx:241 | one chapter on, never past the last |
| BookReader.ChapterStaysInBook | src/components/book-reader.tsx:235-241 | both buttons keep the chapter index inside the book, and never move it the wrong way |
| BookReader.ReaderScreen.constructor | src/components/book-reader.tsx:144-148 | no open book, chapter 0, empty search and bookmarks |
| BookReader.ReaderScreen.SetSearchTerm | src/components/book-reader.tsx:269 | only the search term changes |
| BookReader.ReaderScreen.ToggleBookmarkOf | src/components/book-reader.tsx:218 | the bookmarks become `ToggleBookmark` of the old list, still without duplicates |
| BookReader.ReaderScreen.StartReading | src/components/book-reader.tsx:164-167 | the book is open at chapter 0 |
| BookReader.ReaderScreen.CloseBook | src/components/book-reader.tsx:180 | no book is open |
| BookReader.ReaderScreen.GoToChapter | src/components/book-reader.tsx:196 | the chosen chapter of the open book is shown |
| BookReader.ReaderScreen.GoToPreviousChapter | src/components/book-reader.tsx:235 | the chapter becomes `PrevChapter` of the old one, inside the book |
| BookReader.ReaderScreen.GoToNextChapter | src/components/book-reader.tsx:241 | the chapter becomes `NextChapter` of the old one, inside the book |
| Therapists.FilterTherapists | src/components/therapist-connect.tsx:121-132 | exactly the therapists every non-empty filter accepts remain, in order: location contains the term ignoring case, the specialty is offered, the session type is offered |
| Therapists.Keep | src/components/therapist-connect.tsx:121-132 | the filter rule: each filter is empty or accepts the therapist (location includes the term ignoring case; specialty and session type are offered) |
| Therapists.PriceRangeIgnored | src/components/therapist-connect.tsx:121-132 | the price range held in state (line 116) never changes the result |
| Therapists.NoFiltersKeepAll | src/components/therapist-connect.tsx:121-132 | with every filter empty the whole list is shown |
| Therapists.AllOffered | src/components/therapist-connect.tsx:119 | a specialty is in the flattened list exactly when some therapist offers it |
| Therapists.Dedup | src/components/therapist-connect.tsx:119 | the result has no duplicates and holds exactly the elements of the input |
| Therapists.DedupKeepsPrefix | src/components/therapist-connect.tsx:119 | appending elements never moves the ones already collected, so each appears where it first occurs |
| Therapists.AllSpecialties | src/components/therapist-connect.tsx:119 | every offered specialty appears exactly once |
| Sounds.EffectiveVolume | src/components/calming-sounds.tsx:106 | the element volume is 0 when muted, else the product of the two percentages; always in [0, 1] |
| Sounds.PlayingCount | src/components/calming-sounds.tsx:159 | at most the number of sounds, and 0 exactly when no sound plays |
| Sounds.Toggled | src/components/calming-sounds.tsx:115-133 | only the sound with that id flips its play flag |
| Sounds.WithVolume | src/components/calming-sounds.tsx:137-143 | only the sound with that id takes the new volume |
| Sounds.Stopped | src/components/calming-sounds.tsx:145-157 | every sound stops |
| Sounds.StopAllSilences | src/components/calming-sounds.tsx:145-159 | after stopping everything the playing count is 0 and every volume is kept |
| Sounds.ToggleChangesCountByOne | src/components/calming-sounds.tsx:159 | with unique ids, toggling a sound changes the playing count by exactly one |
| Sounds.ToggleTwiceRestores | src/components/calming-sounds.tsx:111-135 | toggling the same sound twice restores the list |
| Sounds.Mixer.constructor | src/components/calming-sounds.tsx:18-99 | six sounds in order, none playing, each at 50; master 70, not muted; every sound has an audio element |
| Sounds.Mixer.ToggleSound | src/components/calming-sounds.tsx:111-135 | a sound without an audio element is left alone; otherwise the array becomes `Toggled` of the old one |
| Sounds.Mixer.UpdateSoundVolume | src/components/calming-sounds.tsx:137-143 | the array becomes `WithVolume` of the old one |
| Sounds.Mixer.StopAllSounds | src/components/calming-sounds.tsx:145-157 | the array becomes `Stopped` of the old one |
| Sounds.Mixer.SetMasterVolume | src/components/calming-sounds.tsx:193 | only the master volume changes |
| Sounds.Mixer.ToggleMute | src/components/calming-sounds.tsx:183 | only the mute switch flips |
| Particles.LeafIndex | src/components/immersive-environment.tsx:177 | `floor(r * 3)` is one of the three leaf colours |
| Particles.CreateParticle | src/components/immersive-environment.tsx:156-210 | the particle has the given id, x in [0, width] and opacity in [0.3, 1); bubbles start at or below the bottom edge with upward speed in (-3, -1]; every other type starts at or above the top edge; each type's speed and size lie in its ranges; leaves take one of the three greens |
| Particles.Advance | src/components/immersive-environment.tsx:213-236 | only the position changes; afterwards x is in [-10, width + 10]; a bubble has y >= -10 and any other particle y <= height + 10 |
| Particles.AdvanceWraps | src/components/immersive-environment.tsx:217-234 | a bubble above y = -10 returns at height + 10, any other particle below height + 10 returns at -10, both at the drawn x; otherwise the particle moves by its velocity and wraps across the side edges |
| Particles.RisingSparkleEscapes | src/components/immersive-environment.tsx:226-231 | the vertical bound is one-sided: a sparkle drifting upward from y = -10 reaches -11 |
| Particles.AdvanceAll | src/components/immersive-environment.tsx:213-239 | every particle of the field takes one move |
| Particles.Field | src/components/immersive-environment.tsx:150-152 | the new field holds one created particle per draw, with ids 0 to count - 1 |
| Particles.FrameBounds | src/components/immersive-environment.tsx:212-239 | after any frame every particle is inside the horizontal band and on the wrapping side of the vertical one, and nothing but its position changed |
| Particles.Scene.constructor | src/components/immersive-environment.tsx:124-129 | the first environment, an empty field, not playing |
| Particles.Scene.InitializeParticles | src/components/immersive-environment.tsx:145-154 | without a canvas nothing changes; otherwise a new array of exactly `count` particles is built, equal to `Field` |
| Particles.Scene.SelectEnvironment | src/components/immersive-environment.tsx:133-143 | the environment changes; with a canvas the field is rebuilt as a new array equal to `Field` of the new environment, and without one it is kept |
| Particles.Scene.UpdateParticles | src/components/immersive-environment.tsx:212-239 | the array, updated in place, becomes `AdvanceAll` of the old one |
| Particles.Scene.TogglePlaying | src/components/immersive-environment.tsx:133-143 | the Play/Pause button (line 382) flips the playing flag, and because the effect depends on it, with a canvas the field is rebuilt as a new array equal to `Field`; the environment is kept |
| Shell.Greeting | src/App.tsx:175-180 | "Good morning" exactly before 12, "Good afternoon" exactly from 12 to before 17, "Good evening" exactly from 17 |
| Shell.InitialDark | src/App.tsx:155 | a saved "dark" turns dark mode on; any other non-empty saved theme turns it off; with nothing saved the system preference decides |
| Shell.ThemeName | src/App.tsx:172 | the stored theme is "dark" or "light" |
| Shell.StoredThemeRoundTrip | src/App.tsx:150-173 | the stored theme reproduces the setting it was stored from, whatever the system preference |
| Shell.Tab | src/App.tsx:360-368 | a tab lists exactly the features of its category, in catalogue order |
| Shell.TabOfFeature | src/App.tsx:360-368 | every catalogue feature appears in the tab of its own category and in no other |
| Shell.TabsPartition | src/App.tsx:360-368 | the four tabs together hold as many features as the catalogue |
| Shell.App.constructor | src/App.tsx:150-156 | dark mode follows `InitialDark`; no feature is open |
| Shell.App.ToggleTheme | src/App.tsx:168-173 | dark mode flips and the stored theme names the new setting |
| Shell.App.SelectFeature | src/App.tsx:145 | only the open feature changes |
| Shell.ToggleTwiceRestores | src/App.tsx:168-173 | two toggles restore the setting, and the stored theme reproduces it on the next start |
| Common.Filter | src/components/journal.tsx:90 | `Array.prototype.filter`: an order-preserving selection of the elements that pass, and as many as pass, so none is dropped |
| Common.BlankIffAllSpace | src/components/journal.tsx:66 | `!s.trim()` holds exactly when every character is whitespace |
| Common.Trim | src/components/journal.tsx:74 | the result is the piece `s[i..j]` of the input with only whitespace before `i` and after `j`, and neither end of it is whitespace, so exactly the leading and trailing whitespace is cut; a trimmed input is returned unchanged |
| Common.Split | src/components/journal.tsx:74 | `split(',')`: at least one piece, and no piece holds the separator |
| Common.Join | src/components/journal.tsx:100 | `join(', ')`: no parts give "", one part gives itself, and with more the first part and the delimiter come first |
| Common.ToLower | src/components/journal.tsx:106-108 | `toLowerCase` keeps the length and lowers each ASCII capital, leaving every other character |
| Common.Contains | src/components/journal.tsx:106-108 | `includes`: the term occurs at some position of the text |
| Common.EmptyTermMatches | src/components/journal.tsx:106 | every string includes the empty search term |

## Left out

- Persistence: `localStorage` reads and writes and the JSON round trips are left out. Stored records are modelled in memory only:
  - journal entries;
  - game statistics;
  - assessments;
  - favourites;
  - the theme.
- Stored journal entries are assumed to have clean tags, because that is what saving produces. Entries loaded from storage could break this, and loading is not modelled.
- The AI chat screen (src/components/ai-chat.tsx) is not part of this model. It is a remote client.
- Rendering is left out: markup, styling, motion animations, the history chart and canvas drawing.
- Browser services are left out: audio playback, the fullscreen API, the clipboard, speech and `matchMedia`. `Sounds.Mixer.audio` records only which sounds have an audio element.
- Timers are explicit methods the caller invokes:
  - the breathing interval;
  - the memory mismatch timeout;
  - Simon's sequence display;
  - the focus countdown;
  - the translator's one-second delay, which is collapsed into `HandleTranslate`;
  - the animation frame.
- `Math.random()` draws are parameters in [0, 1):
  - the shuffle is any permutation of the doubled emoji list;
  - Simon colours are indices below 6;
  - focus points are 80 to 120: in doubles, the four largest draws below 1 round `(r * 0.4 + 0.8) * 100` up to 120.
- Clock values are parameters: `Date.now()` ids, dates and the hour.
- Breathing.Ticked: time is counted in whole 100 ms ticks. The source adds 0.1 in floating point, so a 6, 7 or 8 second phase lasts one tick longer there than here.
- Particles.CreateParticle: positions and speeds are exact reals, not floating point.
- Common.ToLower: only ASCII letters are lowered.
- Favorites.IsFavorite: items are compared by structural equality. The source compares JSON texts, which differ from structural equality only for stored items whose keys are in a different order.
- Favorites.CategoryColor: inherited object keys such as "constructor" are not modelled. For those keys the source returns a non-string value.
- Translation.Lookup: inherited object keys of the phrase tables are not modelled.
- Static catalogues are supplied as constructor parameters instead of copied in: the quotes, jokes and tips, the library books and the therapists. The translation tables, breathing patterns, questions, sounds, environments and features are copied in.
- BookReader.ReaderScreen.Valid: it requires every library book to have at least one chapter, as every sample book does. The Next button's disabled state is not modelled; the clamp makes it harmless.
- Games.FlipRules: the final memory score is modelled as written, using the score the handler read before the 50-point deduction (+200). With s the score before the final click, the screen shows max(0, s - 50) + 200 and the save records s + 200, which is higher by min(50, s).
- Games.FocusTick: the score and statistics saved are the ones captured when the countdown started, as written.
- Particles.Advance: the vertical bound holds on the wrapping side only. A sparkle or firefly with an upward speed leaves the top edge and is never brought back (`Particles.RisingSparkleEscapes`). A two-sided bound would not hold for the code as written.
- The volume, mute and fullscreen controls of the particle scene are left out; they only touch presentation.
